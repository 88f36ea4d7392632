/** Makes sure the app may read sleep data before it reads any. */
module SleepPermissions {
  import opened Completions
  import opened HealthPlatform

  /** Read access to sleep data. */
  const SleepRead: Permission := Permission(Sleep, Read)

  /** `preparePermissionSet`: the permissions a sleep read needs. */
  method PreparePermissionSet() returns (permissionSet: set<Permission>)
    ensures SleepRead in permissionSet
    ensures forall p :: p in permissionSet ==> p.dataType == Sleep && p.accessType == Read
    ensures |permissionSet| == 1
  {
    permissionSet := {};
    var sleepPermission: Option<Permission> := Some(Permission(Sleep, Read));
    if sleepPermission.Some? {
      permissionSet := permissionSet + {sleepPermission.value};
    }
  }

  /** `requestSleepPermissions`. The platform is given by its two calls:
      `getGrantedPermissions` reports what is granted, `requestPermissions` runs the
      interactive grant flow. `prompted` records whether the grant flow ran. */
  method RequestSleepPermissions(
    getGrantedPermissions: set<Permission> -> Completion<set<Permission>>,
    requestPermissions: set<Permission> -> Completion<set<Permission>>)
    returns (r: Completion<bool>, ghost prompted: bool)
    // a failure of the first query is not caught
    ensures getGrantedPermissions({SleepRead}).Threw? ==>
              r == Threw(getGrantedPermissions({SleepRead}).failure) && !prompted
    // already granted: true, and no prompt
    ensures getGrantedPermissions({SleepRead}).Returned? && SleepRead in getGrantedPermissions({SleepRead}).value ==>
              r == Returned(true) && !prompted
    // not yet granted: prompt, and answer from what the grant flow leaves granted
    ensures getGrantedPermissions({SleepRead}).Returned? && SleepRead !in getGrantedPermissions({SleepRead}).value ==>
              prompted &&
              match requestPermissions({SleepRead})
              case Returned(granted) => r == Returned(SleepRead in granted)
              case Threw(HealthDataException(m)) => r == Threw(HealthDataException(m))
              case Threw(OtherThrowable(_)) => r == Returned(false)
    // true only when the platform reported the permission granted
    ensures r == Returned(true) ==>
              (getGrantedPermissions({SleepRead}).Returned? && SleepRead in getGrantedPermissions({SleepRead}).value) ||
              (requestPermissions({SleepRead}).Returned? && SleepRead in requestPermissions({SleepRead}).value)
  {
    var permissionSet := PreparePermissionSet();
    assert permissionSet == {SleepRead};
    prompted := false;
    var queried := getGrantedPermissions(permissionSet);
    if queried.Threw? {
      return Threw(queried.failure), prompted;
    }
    var grantedPermission := queried.value;
    if permissionSet <= grantedPermission {
      return Returned(true), prompted;
    }
    prompted := true;
    var attempt := requestPermissions(permissionSet);
    match attempt {
      case Returned(granted) =>
        grantedPermission := granted;
      case Threw(failure) =>
        if failure.HealthDataException? {
          return Threw(failure), prompted;
        }
        // any other throwable is logged and swallowed
    }
    r := Returned(permissionSet <= grantedPermission);
  }
}
