/**
 * The certificate provisioner (`make_temp_cert`): reuse the cached PEM at its fixed temp
 * path while it is younger than a day, otherwise run the external generator over it.
 * Times are whole seconds; the generator's exit status is an input.
 */
module Cert {
  import opened Wrappers

  /** The freshness window, in seconds (24 hours). */
  const MaxAge: int := 86400

  /** What the file system holds at the certificate path: nothing, or a file with its modification time. */
  datatype PemFile = Absent | Present(mtime: int)

  /** Whether the call handed back the cached file or had the generator write a new one. */
  datatype Provision = Reused | Regenerated

  /** The generator exited non-zero (`check=True` raises, aborting the program). */
  datatype CertError = GeneratorFailed

  /** The reuse test: the file exists and is strictly younger than the window. */
  predicate Reusable(present: bool, now: int, mtime: int) {
    present && now - mtime < MaxAge
  }

  /** `make_temp_cert()`: the provision taken and the file left at the path, or the generator's failure. */
  function MakeTempCert(file: PemFile, now: int, generatorOk: bool): (r: Result<(Provision, PemFile), CertError>)
    ensures r.Success? && r.value.0 == Reused <==> file.Present? && now < file.mtime + MaxAge
    ensures r.Success? && r.value.0 == Reused ==> r.value.1 == file
    ensures r.Success? && r.value.0 == Regenerated <==> (file.Absent? || now - file.mtime >= MaxAge) && generatorOk
    ensures r.Success? && r.value.0 == Regenerated ==> r.value.1 == Present(now)
    ensures r.Failure? <==> (file.Absent? || now - file.mtime >= MaxAge) && !generatorOk
  {
    if Reusable(file.Present?, now, if file.Present? then file.mtime else 0) then Success((Reused, file))
    else if generatorOk then Success((Regenerated, Present(now)))
    else Failure(GeneratorFailed)
  }

  /** Reuse at some moment implies reuse at every earlier moment: freshness only runs out. */
  lemma ReuseAntitone(file: PemFile, now: int, earlier: int, ok: bool, ok': bool)
    requires earlier <= now
    requires MakeTempCert(file, now, ok) == Success((Reused, file))
    ensures MakeTempCert(file, earlier, ok') == Success((Reused, file))
  {
  }

  /**
   * Once the provisioner has succeeded, a later call within a day of the file's
   * modification time reuses it: the generator runs at most once per window.
   */
  lemma GeneratesAtMostOncePerWindow(file: PemFile, now: int, ok: bool, later: int, ok': bool)
    requires MakeTempCert(file, now, ok).Success?
    requires now <= later < MakeTempCert(file, now, ok).value.1.mtime + MaxAge
    ensures MakeTempCert(MakeTempCert(file, now, ok).value.1, later, ok').Success?
    ensures MakeTempCert(MakeTempCert(file, now, ok).value.1, later, ok').value.0 == Reused
  {
  }

  /** Calling the provisioner again at the same moment reuses what the first call left: it is idempotent. */
  lemma ProvisionIdempotent(file: PemFile, now: int, ok: bool, ok': bool)
    requires MakeTempCert(file, now, ok).Success?
    ensures var file' := MakeTempCert(file, now, ok).value.1;
      MakeTempCert(file', now, ok') == Success((Reused, file'))
  {
  }

  /** A file whose modification time lies in the future (a skewed clock) is always reused. */
  lemma FutureFileAlwaysReused(mtime: int, now: int, ok: bool)
    requires now <= mtime
    ensures MakeTempCert(Present(mtime), now, ok) == Success((Reused, Present(mtime)))
  {
  }
}
