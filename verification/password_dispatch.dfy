/**
 * The password-change dispatch table: for a VM (named by its instance key)
 * and a login, the function that changes that login's password and the
 * template key its new password is stored under. Pairs outside the table
 * have no entry.
 */
module PasswordDispatch {
  import opened Strings
  import opened InstanceKeys

  /** The password changers the table can select. */
  datatype ChangeFunction = ChangeCliPassword | ChangeAdminPassword | ChangeRootPassword

  /** The template keys new passwords are stored under (CLIPASSWORD, ADMINPASSWORD, ROOTPASSWORD). */
  datatype DbKey = CliPasswordKey | AdminPasswordKey | RootPasswordKey

  /** The table rows: VM type, login, changer, storage key. */
  datatype Entry = Entry(vmType: string, login: string, change: ChangeFunction, key: DbKey)

  const Table: seq<Entry> := [
    Entry("cms", "cms", ChangeCliPassword, CliPasswordKey),
    Entry("cms", "cmssvc", ChangeAdminPassword, AdminPasswordKey),
    Entry("cms", "root", ChangeRootPassword, RootPasswordKey)
  ]

  /** The table row for a VM type and login, if any. */
  function FindEntry(vmType: string, login: string, rows: seq<Entry>): (r: Option<Entry>)
    ensures r.Some? ==> r.value in rows && r.value.vmType == vmType && r.value.login == login
    ensures r.None? ==> forall e :: e in rows ==> e.vmType != vmType || e.login != login
  {
    if |rows| == 0 then None
    else if rows[0].vmType == vmType && rows[0].login == login then Some(rows[0])
    else FindEntry(vmType, login, rows[1..])
  }

  function LookupEntry(vmName: string, login: string): (r: Option<Entry>)
    ensures r.Some? ==> VmTypeOf(vmName) == Some(r.value.vmType) && r.value.login == login && r.value in Table
  {
    match VmTypeOf(vmName)
    case None => None
    case Some(t) => FindEntry(t, login, Table)
  }

  /** get_password_change_function: the changer for the VM's type and the login. */
  function GetPasswordChangeFunction(vmName: string, login: string): (f: Option<ChangeFunction>)
    ensures f.Some? <==> LookupEntry(vmName, login).Some?
    ensures f.Some? ==> exists e :: e in Table && VmTypeOf(vmName) == Some(e.vmType)
                                    && e.login == login && e.change == f.value
  {
    match LookupEntry(vmName, login)
    case None => None
    case Some(e) => Some(e.change)
  }

  /** get_db_key: where the login's new password is stored. */
  function GetDbKey(vmName: string, login: string): (k: Option<DbKey>)
    ensures k.Some? <==> LookupEntry(vmName, login).Some?
    ensures k.Some? ==> exists e :: e in Table && VmTypeOf(vmName) == Some(e.vmType)
                                    && e.login == login && e.key == k.value
  {
    match LookupEntry(vmName, login)
    case None => None
    case Some(e) => Some(e.key)
  }

  /** The storage key that belongs to each changer. */
  function KeyOfChanger(f: ChangeFunction): DbKey {
    match f
    case ChangeCliPassword => CliPasswordKey
    case ChangeAdminPassword => AdminPasswordKey
    case ChangeRootPassword => RootPasswordKey
  }

  /** The two lookups agree: a changer is found exactly when its own key is. */
  lemma ChangerAndKeyAgree(vmName: string, login: string)
    ensures GetPasswordChangeFunction(vmName, login).Some? <==> GetDbKey(vmName, login).Some?
    ensures GetPasswordChangeFunction(vmName, login).Some? ==>
              GetDbKey(vmName, login) == Some(KeyOfChanger(GetPasswordChangeFunction(vmName, login).value))
  {
  }

  /** Different logins on the same VM never share a storage key. */
  lemma DistinctLoginsDistinctKeys(vmName: string, l1: string, l2: string)
    requires l1 != l2
    requires GetDbKey(vmName, l1).Some? && GetDbKey(vmName, l2).Some?
    ensures GetDbKey(vmName, l1) != GetDbKey(vmName, l2)
  {
  }

  /** The table's CMS rows, found by login. */
  lemma CmsRows()
    ensures FindEntry("cms", "cms", Table) == Some(Table[0])
    ensures FindEntry("cms", "cmssvc", Table) == Some(Table[1])
    ensures FindEntry("cms", "root", Table) == Some(Table[2])
  {
    assert |"cmssvc"| != |"cms"| && |"root"| != |"cms"| && |"root"| != |"cmssvc"|;
    assert Table[1..][1..] == [Table[2]];
  }

  /** On any CMS VM, the three logins dispatch to their own changers. */
  lemma CmsChangeFunctions(vmName: string)
    requires VmTypeOf(vmName) == Some("cms")
    ensures GetPasswordChangeFunction(vmName, "cms") == Some(ChangeCliPassword)
    ensures GetPasswordChangeFunction(vmName, "cmssvc") == Some(ChangeAdminPassword)
    ensures GetPasswordChangeFunction(vmName, "root") == Some(ChangeRootPassword)
  {
    CmsRows();
  }

  /** On any CMS VM, the three logins store their passwords under their own keys. */
  lemma CmsDbKeys(vmName: string)
    requires VmTypeOf(vmName) == Some("cms")
    ensures GetDbKey(vmName, "cms") == Some(CliPasswordKey)
    ensures GetDbKey(vmName, "cmssvc") == Some(AdminPasswordKey)
    ensures GetDbKey(vmName, "root") == Some(RootPasswordKey)
  {
    CmsRows();
  }

  /** cms_instance_1, the VM the test suite uses, is a CMS VM. */
  lemma CmsInstanceIsCms()
    ensures VmTypeOf(InstanceKey("cms", 1)) == Some("cms")
  {
  }
}
