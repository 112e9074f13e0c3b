/** The security probe (getSecurityInfo) and its root heuristic (checkRoot). */
module Security {
  import opened Wrappers
  import opened Device
  import opened Values

  /** The four superuser locations checkRoot looks for, in its order. */
  const SuPaths: seq<string> := ["/system/app/Superuser.apk", "/sbin/su", "/system/bin/su", "/system/xbin/su"]

  /** `paths.any { File(it).exists() }`, stopping at the first path that exists. */
  function AnyExists(paths: seq<string>, existing: set<string>): bool {
    |paths| > 0 && (paths[0] in existing || AnyExists(paths[1..], existing))
  }

  lemma {:induction false} AnyExistsMeansSomePathExists(paths: seq<string>, existing: set<string>)
    ensures AnyExists(paths, existing) <==> exists i :: 0 <= i < |paths| && paths[i] in existing
  {
    if |paths| > 0 {
      AnyExistsMeansSomePathExists(paths[1..], existing);
      assert forall i :: 1 <= i < |paths| ==> paths[i] == paths[1..][i - 1];
      if exists i :: 0 <= i < |paths| && paths[i] in existing {
        var i :| 0 <= i < |paths| && paths[i] in existing;
        if i > 0 {
          assert paths[1..][i - 1] in existing;
        }
      }
    }
  }

  /** checkRoot: true exactly when one of the four superuser paths exists. */
  function CheckRoot(d: Snapshot): (rooted: bool)
    ensures rooted <==> exists i :: 0 <= i < |SuPaths| && SuPaths[i] in d.existingFiles
  {
    AnyExistsMeansSomePathExists(SuPaths, d.existingFiles);
    AnyExists(SuPaths, d.existingFiles)
  }

  lemma CheckRootIffSuperuserPath(d: Snapshot)
    ensures CheckRoot(d) <==> exists p :: p in SuPaths && p in d.existingFiles
  {
    AnyExistsMeansSomePathExists(SuPaths, d.existingFiles);
    if exists p :: p in SuPaths && p in d.existingFiles {
      var p :| p in SuPaths && p in d.existingFiles;
      var i :| 0 <= i < |SuPaths| && SuPaths[i] == p;
    }
  }

  /** Files other than the four superuser paths have no influence on checkRoot. */
  lemma CheckRootIgnoresOtherFiles(d: Snapshot, extra: set<string>)
    requires forall p :: p in extra ==> p !in SuPaths
    ensures CheckRoot(d.(existingFiles := d.existingFiles + extra)) == CheckRoot(d)
  {
    CheckRootIffSuperuserPath(d);
    CheckRootIffSuperuserPath(d.(existingFiles := d.existingFiles + extra));
  }

  datatype SecurityRecord = SecurityRecord(isRooted: bool, isEncrypted: bool)
  {
    function ToValue(): Value {
      Record(map["isRooted" := Bool(isRooted), "isEncrypted" := Bool(isEncrypted)])
    }
  }

  /** getSecurityInfo: the root heuristic, and "encrypted" whenever the device policy service
      exists (false when looking it up throws). */
  function SecurityInfo(d: Snapshot): (r: SecurityRecord)
    ensures r.isRooted == CheckRoot(d)
    ensures r.isEncrypted <==> d.devicePolicyService == Ok(true)
  {
    SecurityRecord(CheckRoot(d), CatchAll(d.devicePolicyService, false))
  }
}
