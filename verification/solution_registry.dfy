/**
 * The solution registry behind the solutions API: at most one solution per
 * customer id, kept in creation order. Creating a duplicate is refused with
 * a message and leaves the registry as it was; looking up an unknown id
 * yields a sentinel record rather than an error.
 */
module SolutionRegistry {
  import opened Strings

  datatype Solution = Solution(customerId: int, numberOfUsers: int, remoteSupport: string,
                               customerName: string)

  /** The registry: solutions in creation order. */
  type Registry = seq<Solution>

  /** At most one solution per customer id. */
  predicate Valid(reg: Registry) {
    forall i, j :: 0 <= i < j < |reg| ==> reg[i].customerId != reg[j].customerId
  }

  predicate Listed(reg: Registry, id: int) {
    exists i :: 0 <= i < |reg| && reg[i].customerId == id
  }

  /** The outcome create_solution reports. */
  datatype CreateOutcome = Success | AlreadyExists(message: string)

  const AlreadyExistsPrefix: string := "Solution already exists, customer ID = "

  function AlreadyExistsMessage(id: int): string {
    AlreadyExistsPrefix + IntToString(id)
  }

  /** The customer id a refusal message names. */
  function IdOfMessage(msg: string): Option<int> {
    if StartsWith(msg, AlreadyExistsPrefix) then ParseInt(msg[|AlreadyExistsPrefix|..]) else None
  }

  /** A refusal names the customer id it refused. */
  lemma AlreadyExistsNamesId(id: int)
    ensures IdOfMessage(AlreadyExistsMessage(id)) == Some(id)
  {
    var m := AlreadyExistsMessage(id);
    assert m[..|AlreadyExistsPrefix|] == AlreadyExistsPrefix;
    assert m[|AlreadyExistsPrefix|..] == IntToString(id);
    IntToStringRoundTrip(id);
  }

  /** create_solution: append a new solution, or refuse a customer id already listed. */
  function CreateSolution(reg: Registry, id: int, users: int, remoteSupport: string, name: string)
    : (r: (Registry, CreateOutcome))
    requires Valid(reg)
    ensures Valid(r.0)
    ensures Listed(reg, id) ==> r.0 == reg && r.1 == AlreadyExists(AlreadyExistsMessage(id))
    ensures !Listed(reg, id) ==> r.0 == reg + [Solution(id, users, remoteSupport, name)] && r.1 == Success
  {
    if Listed(reg, id) then (reg, AlreadyExists(AlreadyExistsMessage(id)))
    else (reg + [Solution(id, users, remoteSupport, name)], Success)
  }

  /** What get_solution_info returns: the stored record, or the sentinel for an unknown id. */
  datatype SolutionInfo = Found(solution: Solution) | NotListed(customerId: int)

  const NotInParametersList: string := "Not in parameters list"

  /** The customerName field of the returned record. */
  function CustomerName(info: SolutionInfo): string {
    match info
    case Found(s) => s.customerName
    case NotListed(_) => NotInParametersList
  }

  /** get_solution_info: the solution stored for the id, or the sentinel. */
  function GetSolutionInfo(reg: Registry, id: int): (info: SolutionInfo)
    ensures info.NotListed? <==> !Listed(reg, id)
    ensures info.NotListed? ==> info.customerId == id
    ensures info.Found? ==> info.solution in reg && info.solution.customerId == id
  {
    if |reg| == 0 then NotListed(id)
    else if reg[0].customerId == id then Found(reg[0])
    else
      var r := GetSolutionInfo(reg[1..], id);
      assert Listed(reg, id) <==> Listed(reg[1..], id) by {
        if Listed(reg, id) {
          var i :| 0 <= i < |reg| && reg[i].customerId == id;
          assert reg[1..][i - 1] == reg[i];
        }
        if Listed(reg[1..], id) {
          var i :| 0 <= i < |reg[1..]| && reg[1..][i].customerId == id;
          assert reg[i + 1] == reg[1..][i];
        }
      }
      r
  }

  /**
   * The customerName a lookup reports: the sentinel for an unlisted id, and
   * otherwise the name stored with that id.
   */
  lemma CustomerNameOfLookup(reg: Registry, id: int, i: int)
    requires Valid(reg)
    ensures !Listed(reg, id) ==> CustomerName(GetSolutionInfo(reg, id)) == NotInParametersList
    ensures 0 <= i < |reg| && reg[i].customerId == id
            ==> CustomerName(GetSolutionInfo(reg, id)) == reg[i].customerName
  {
    var info := GetSolutionInfo(reg, id);
    if 0 <= i < |reg| && reg[i].customerId == id {
      assert Listed(reg, id);
      var j :| 0 <= j < |reg| && reg[j] == info.solution;
      assert i == j;
    }
  }

  /** get_all_solutions_info: every solution, in creation order. */
  function GetAllSolutionsInfo(reg: Registry): (all: seq<Solution>)
    ensures |all| == |reg|
    ensures forall i :: 0 <= i < |all| ==> all[i] == reg[i]
  {
    reg
  }

  /** remove_cust_number: drop the customer's solution, keeping the rest in order. */
  function RemoveCustNumber(reg: Registry, id: int): (r: Registry)
    ensures !Listed(r, id)
    ensures forall s :: s in r <==> s in reg && s.customerId != id
    ensures |r| <= |reg|
  {
    if |reg| == 0 then []
    else
      var rest := RemoveCustNumber(reg[1..], id);
      assert forall s :: s in reg <==> s == reg[0] || s in reg[1..];
      if reg[0].customerId == id then rest
      else
        var r := [reg[0]] + rest;
        assert forall i :: 0 < i < |r| ==> r[i] == rest[i - 1];
        r
  }

  /** Removal keeps the registry valid. */
  lemma {:induction false} RemovePreservesValid(reg: Registry, id: int)
    requires Valid(reg)
    ensures Valid(RemoveCustNumber(reg, id))
  {
    if |reg| > 0 {
      assert Valid(reg[1..]);
      RemovePreservesValid(reg[1..], id);
      var rest := RemoveCustNumber(reg[1..], id);
      if reg[0].customerId != id {
        var r := [reg[0]] + rest;
        forall i, j | 0 <= i < j < |r| ensures r[i].customerId != r[j].customerId {
          if i == 0 {
            assert r[j] == rest[j - 1] && r[j] in rest;
            assert r[j] in reg[1..];
            var k :| 0 <= k < |reg[1..]| && reg[1..][k] == r[j];
            assert reg[k + 1] == r[j];
          }
        }
      }
    }
  }

  /** A solution just created is found with the name it was created with. */
  lemma CreateThenGet(reg: Registry, id: int, users: int, remoteSupport: string, name: string)
    requires Valid(reg) && !Listed(reg, id)
    ensures var r := CreateSolution(reg, id, users, remoteSupport, name).0;
            GetSolutionInfo(r, id) == Found(Solution(id, users, remoteSupport, name))
  {
    var r := CreateSolution(reg, id, users, remoteSupport, name).0;
    var info := GetSolutionInfo(r, id);
    assert r[|reg|].customerId == id;
    assert forall k :: 0 <= k < |reg| ==> r[k] == reg[k];
  }

  /** A second create for the same id is refused and overwrites nothing. */
  lemma CreateTwiceRefused(reg: Registry, id: int, users: int, remoteSupport: string, name: string,
                           users2: int, remoteSupport2: string, name2: string)
    requires Valid(reg)
    ensures var r1 := CreateSolution(reg, id, users, remoteSupport, name).0;
            var r2 := CreateSolution(r1, id, users2, remoteSupport2, name2);
            r2.0 == r1 && r2.1 == AlreadyExists(AlreadyExistsMessage(id))
  {
    var r1 := CreateSolution(reg, id, users, remoteSupport, name).0;
    if !Listed(reg, id) {
      assert r1[|reg|].customerId == id;
    }
  }

  /** After removal the id is unknown again, so it can be created anew. */
  lemma RemoveThenCreate(reg: Registry, id: int, users: int, remoteSupport: string, name: string)
    requires Valid(reg)
    ensures GetSolutionInfo(RemoveCustNumber(reg, id), id) == NotListed(id)
    ensures Valid(RemoveCustNumber(reg, id))
    ensures CreateSolution(RemoveCustNumber(reg, id), id, users, remoteSupport, name).1 == Success
  {
    RemovePreservesValid(reg, id);
  }

  /**
   * The test suite's sequence on an empty registry: nothing listed, id 5
   * unknown; create(5, 4000, 'FALSE', 'test') succeeds; a second create is
   * refused naming id 5; the listing and the lookup show 'test'.
   */
  lemma RegistryScenario()
    ensures GetAllSolutionsInfo([]) == []
    ensures CustomerName(GetSolutionInfo([], 5)) == "Not in parameters list"
    ensures var (r1, o1) := CreateSolution([], 5, 4000, "FALSE", "test");
            var (r2, o2) := CreateSolution(r1, 5, 4000, "FALSE", "test");
            && o1 == Success
            && o2 == AlreadyExists(AlreadyExistsMessage(5))
            && IntToString(5) == "5"
            && GetAllSolutionsInfo(r2)[0].customerName == "test"
            && CustomerName(GetSolutionInfo(r2, 5)) == "test"
  {
    var r1 := CreateSolution([], 5, 4000, "FALSE", "test").0;
    assert r1 == [Solution(5, 4000, "FALSE", "test")];
    assert Listed(r1, 5) by { assert r1[0].customerId == 5; }
  }
}
