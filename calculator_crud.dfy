/**
 * Calculator bookkeeping: calculators, their numbered versions with the
 * draft / approved / deprecated life cycle, the resolution of the version a
 * calculator runs, and the message log of a stored generation conversation.
 *
 * The database session is an object holding the three tables in memory;
 * versions are kept in creation order, so "newest first" is "last first".
 * Record ids come from the caller (they are fresh uuids in the service) and
 * timestamps are not modelled.
 */
module CalculatorCrud {
  import opened Wrappers
  import opened Text
  import opened CalculatorEngine

  datatype Status = Draft | PendingApproval | Approved | Deprecated

  datatype CalculatorRecord = CalculatorRecord(
    name: string,
    category: string,
    description: Option<string>,
    isActive: bool,
    currentVersion: Option<string>)

  datatype VersionRecord = VersionRecord(
    id: string,
    calculatorId: string,
    version: string,
    definition: CalculatorDefinition,
    status: Status,
    createdBy: Option<string>,
    approvedBy: Option<string>)

  datatype StoredMessage = StoredMessage(role: string, content: string)

  datatype ConversationRecord = ConversationRecord(
    state: string,
    initialDescription: string,
    messages: seq<StoredMessage>)

  // ------------------------------------------------------------ version numbers

  /** The ValueError text of int() on a string that is not an integer. */
  function InvalidLiteral(text: string): string {
    "invalid literal for int() with base 10: '" + text + "'"
  }

  /**
   * The number after `latest`: major stays, minor goes up by one; a version
   * without a dot counts as minor 0. Parts beyond the second are ignored.
   */
  function BumpVersion(latest: string): (r: Result<string, string>)
    ensures var parts := SplitOn(latest, '.');
      r.Ok? <==> ParseInt(parts[0]).Some? && (|parts| > 1 ==> ParseInt(parts[1]).Some?)
    ensures var parts := SplitOn(latest, '.');
      ParseInt(parts[0]).None? ==> r == Err(InvalidLiteral(parts[0]))
    ensures var parts := SplitOn(latest, '.');
      ParseInt(parts[0]).Some? && |parts| > 1 && ParseInt(parts[1]).None? ==> r == Err(InvalidLiteral(parts[1]))
  {
    var parts := SplitOn(latest, '.');
    var major := ParseInt(parts[0]);
    var minor := if |parts| > 1 then ParseInt(parts[1]) else Some(0);
    if major.None? then Err(InvalidLiteral(parts[0]))
    else if minor.None? then Err(InvalidLiteral(parts[1]))
    else Ok(IntToString(major.value) + "." + IntToString(minor.value + 1))
  }

  /**
   * The number a new version gets, given the calculator's newest version, if
   * any: the first is 1.0, and after 1.k comes 1.(k+1).
   */
  function NextVersionNumber(latest: Option<string>): (r: Result<string, string>)
    ensures latest.None? ==> r == Ok(NthVersion(0))
    ensures forall k: nat {:trigger NthVersion(k)} :: latest == Some(NthVersion(k)) ==> r == Ok(NthVersion(k + 1))
  {
    SmallNumbers();
    BumpEveryNth();
    if latest.None? then Ok("1.0") else BumpVersion(latest.value)
  }

  /** "major.minor" goes to "major.(minor+1)". */
  lemma BumpRendered(major: int, minor: int)
    ensures BumpVersion(IntToString(major) + "." + IntToString(minor))
         == Ok(IntToString(major) + "." + IntToString(minor + 1))
  {
    var a, b := IntToString(major), IntToString(minor);
    NoDotInInt(major);
    NoDotInInt(minor);
    SplitAtFirst(a, b, '.');
    SplitNoSeparator(b, '.');
    assert a + "." + b == a + ['.'] + b;
    ParseIntRoundTrip(major);
    ParseIntRoundTrip(minor);
  }

  /** A dotless "N" goes to "N.1". */
  lemma BumpDotless(n: int)
    ensures BumpVersion(IntToString(n)) == Ok(IntToString(n) + ".1")
  {
    NoDotInInt(n);
    SplitNoSeparator(IntToString(n), '.');
    ParseIntRoundTrip(n);
    assert IntToString(0 + 1) == "1";
    assert IntToString(n) + "." + "1" == IntToString(n) + ".1";
  }

  /** A version that is not a number is refused rather than renumbered. */
  lemma BumpRejectsNonNumber()
    ensures BumpVersion("v1.0") == Err(InvalidLiteral("v1"))
  {
    SplitAtFirst("v1", "0", '.');
    assert "v1.0" == "v1" + ['.'] + "0";
    SplitNoSeparator("0", '.');
    assert !IsDigit('v');
  }

  /** The version number a calculator's k-th version (from 0) receives. */
  function NthVersion(k: nat): string {
    "1." + IntToString(k)
  }

  // ------------------------------------------------------------ queries on the version table

  /** How many versions of the calculator the table holds. */
  function CountFor(versions: seq<VersionRecord>, calculatorId: string): nat {
    if versions == [] then 0
    else CountFor(versions[..|versions| - 1], calculatorId) + (if versions[|versions| - 1].calculatorId == calculatorId then 1 else 0)
  }

  /** The calculator's newest version: the first row of the query ordered newest first. */
  function Latest(versions: seq<VersionRecord>, calculatorId: string): (r: Option<VersionRecord>)
    ensures r.Some? ==> r.value in versions && r.value.calculatorId == calculatorId
  {
    if versions == [] then None
    else if versions[|versions| - 1].calculatorId == calculatorId then Some(versions[|versions| - 1])
    else Latest(versions[..|versions| - 1], calculatorId)
  }

  /** The number of the calculator's newest version, if it has one. */
  function LatestNumberOf(versions: seq<VersionRecord>, calculatorId: string): Option<string> {
    var latest := Latest(versions, calculatorId);
    if latest.Some? then Some(latest.value.version) else None
  }

  /** The calculator's newest approved version. */
  function LatestApproved(versions: seq<VersionRecord>, calculatorId: string): (r: Option<VersionRecord>)
    ensures r.Some? ==> r.value in versions && r.value.calculatorId == calculatorId && r.value.status == Approved
  {
    if versions == [] then None
    else
      var last := versions[|versions| - 1];
      if last.calculatorId == calculatorId && last.status == Approved then Some(last)
      else LatestApproved(versions[..|versions| - 1], calculatorId)
  }

  /** The position of the version with this id. */
  function IndexOf(versions: seq<VersionRecord>, id: string): (r: Option<nat>)
    ensures r.Some? ==> r.value < |versions| && versions[r.value].id == id
    ensures r.None? ==> forall i :: 0 <= i < |versions| ==> versions[i].id != id
  {
    if versions == [] then None
    else if versions[0].id == id then Some(0)
    else
      var r := IndexOf(versions[1..], id);
      if r.Some? then Some(r.value + 1) else None
  }

  function FindVersion(versions: seq<VersionRecord>, id: string): (r: Option<VersionRecord>)
    ensures r.Some? ==> r.value in versions && r.value.id == id
    ensures r.None? ==> forall v :: v in versions ==> v.id != id
  {
    var i := IndexOf(versions, id);
    if i.Some? then Some(versions[i.value]) else None
  }

  /** The calculator's current version id, if set (an empty id counts as unset). */
  function Current(c: CalculatorRecord): Option<string> {
    if c.currentVersion.Some? && c.currentVersion.value != "" then c.currentVersion else None
  }

  /** Version i is numbered 1.k, where k counts the earlier versions of its calculator. */
  ghost predicate NumberedAt(versions: seq<VersionRecord>, i: nat)
    requires i < |versions|
  {
    versions[i].version == NthVersion(CountFor(versions[..i], versions[i].calculatorId))
  }

  ghost predicate Numbered(versions: seq<VersionRecord>) {
    forall i: nat :: i < |versions| ==> NumberedAt(versions, i)
  }

  predicate DistinctIds(versions: seq<VersionRecord>) {
    forall i, j :: 0 <= i < j < |versions| ==> versions[i].id != versions[j].id
  }

  /** Same ids, calculators and numbers, row by row: only status and approver may differ. */
  predicate SameKeys(a: seq<VersionRecord>, b: seq<VersionRecord>) {
    |a| == |b|
    && forall i :: 0 <= i < |a| ==> a[i].id == b[i].id && a[i].calculatorId == b[i].calculatorId && a[i].version == b[i].version
  }

  // ------------------------------------------------------------ lemmas on the table

  lemma NumberedPrefix(versions: seq<VersionRecord>, n: nat)
    requires Numbered(versions) && n <= |versions|
    ensures Numbered(versions[..n])
  {
    forall i: nat | i < n
      ensures NumberedAt(versions[..n], i)
    {
      assert versions[..n][..i] == versions[..i];
      assert NumberedAt(versions, i);
    }
  }

  /** In a consistently numbered table a calculator's newest version is 1.(k-1), k counting its versions. */
  lemma {:induction false} LatestNumber(versions: seq<VersionRecord>, calculatorId: string)
    requires Numbered(versions)
    ensures Latest(versions, calculatorId).None? <==> CountFor(versions, calculatorId) == 0
    ensures Latest(versions, calculatorId).Some? ==>
      Latest(versions, calculatorId).value.version == NthVersion(CountFor(versions, calculatorId) - 1)
  {
    if versions != [] {
      var n := |versions| - 1;
      var init := versions[..n];
      if versions[n].calculatorId != calculatorId {
        NumberedPrefix(versions, n);
        LatestNumber(init, calculatorId);
      } else {
        assert NumberedAt(versions, n);
      }
    }
  }

  lemma SmallNumbers()
    ensures IntToString(0) == "0" && IntToString(1) == "1"
    ensures NthVersion(0) == "1.0"
  {
    assert "1." + "0" == "1.0";
  }

  /** 1.k goes to 1.(k+1). */
  lemma BumpNth(k: nat)
    ensures BumpVersion(NthVersion(k)) == Ok(NthVersion(k + 1))
  {
    SmallNumbers();
    var one := IntToString(1) + ".";
    assert one == "1.";
    assert NthVersion(k) == one + IntToString(k);
    assert NthVersion(k + 1) == one + IntToString(k + 1);
    BumpRendered(1, k);
  }

  lemma BumpEveryNth()
    ensures forall k: nat {:trigger NthVersion(k)} :: BumpVersion(NthVersion(k)) == Ok(NthVersion(k + 1))
  {
    forall k: nat
      ensures BumpVersion(NthVersion(k)) == Ok(NthVersion(k + 1))
    {
      BumpNth(k);
    }
  }

  /**
   * The next version of a calculator with k versions gets 1.k: numbers are
   * 1.0, 1.1, 1.2, ... in creation order and never repeat.
   */
  lemma NextVersionContinues(versions: seq<VersionRecord>, calculatorId: string)
    requires Numbered(versions)
    ensures NextVersionNumber(LatestNumberOf(versions, calculatorId)) == Ok(NthVersion(CountFor(versions, calculatorId)))
  {
    LatestNumber(versions, calculatorId);
    var k := CountFor(versions, calculatorId);
    var latest := LatestNumberOf(versions, calculatorId);
    if k == 0 {
      assert latest == None;
      SmallNumbers();
    } else {
      assert latest == Some(NthVersion(k - 1));
      BumpNth(k - 1);
    }
  }

  lemma NumberedAppend(versions: seq<VersionRecord>, v: VersionRecord)
    requires Numbered(versions) && v.version == NthVersion(CountFor(versions, v.calculatorId))
    ensures Numbered(versions + [v])
  {
    var all := versions + [v];
    forall i: nat | i < |all|
      ensures NumberedAt(all, i)
    {
      if i < |versions| {
        assert all[..i] == versions[..i];
        assert NumberedAt(versions, i);
      } else {
        assert all[..i] == versions;
      }
    }
  }

  lemma {:induction false} CountSameKeys(a: seq<VersionRecord>, b: seq<VersionRecord>, calculatorId: string)
    requires SameKeys(a, b)
    ensures CountFor(a, calculatorId) == CountFor(b, calculatorId)
  {
    if a != [] {
      CountSameKeys(a[..|a| - 1], b[..|b| - 1], calculatorId);
    }
  }

  lemma NumberedSameKeys(a: seq<VersionRecord>, b: seq<VersionRecord>)
    requires SameKeys(a, b) && Numbered(a)
    ensures Numbered(b)
  {
    forall i: nat | i < |b|
      ensures NumberedAt(b, i)
    {
      CountSameKeys(a[..i], b[..i], b[i].calculatorId);
      assert NumberedAt(a, i);
    }
  }

  lemma {:induction false} IndexOfSameKeys(a: seq<VersionRecord>, b: seq<VersionRecord>, id: string)
    requires SameKeys(a, b)
    ensures IndexOf(a, id) == IndexOf(b, id)
  {
    if a != [] {
      IndexOfSameKeys(a[1..], b[1..], id);
    }
  }

  lemma {:induction false} IndexOfAppend(a: seq<VersionRecord>, v: VersionRecord, id: string)
    requires id != v.id
    ensures IndexOf(a + [v], id) == IndexOf(a, id)
  {
    if a != [] {
      assert (a + [v])[1..] == a[1..] + [v];
      IndexOfAppend(a[1..], v, id);
    }
  }

  lemma {:induction false} IndexOfDistinct(a: seq<VersionRecord>, i: nat)
    requires DistinctIds(a) && i < |a|
    ensures IndexOf(a, a[i].id) == Some(i)
  {
    if i > 0 {
      IndexOfDistinct(a[1..], i - 1);
    }
  }

  predicate NoneApprovedAfter(versions: seq<VersionRecord>, i: nat, calculatorId: string) {
    forall j :: i < j < |versions| ==> !(versions[j].calculatorId == calculatorId && versions[j].status == Approved)
  }

  /** The fallback of get_active_version: an approved version of the calculator, with none approved after it. */
  lemma {:induction false} LatestApprovedIsNewest(versions: seq<VersionRecord>, calculatorId: string)
    ensures LatestApproved(versions, calculatorId).Some? <==>
      exists v :: v in versions && v.calculatorId == calculatorId && v.status == Approved
    ensures var r := LatestApproved(versions, calculatorId);
      r.Some? ==> r.value.calculatorId == calculatorId && r.value.status == Approved
    ensures var r := LatestApproved(versions, calculatorId);
      r.Some? ==> exists i: nat :: i < |versions| && versions[i] == r.value && NoneApprovedAfter(versions, i, calculatorId)
  {
    if versions != [] {
      var init := versions[..|versions| - 1];
      var last := versions[|versions| - 1];
      LatestApprovedIsNewest(init, calculatorId);
      assert versions == init + [last];
      if !(last.calculatorId == calculatorId && last.status == Approved) {
        var r := LatestApproved(init, calculatorId);
        if r.Some? {
          var i: nat :| i < |init| && init[i] == r.value && NoneApprovedAfter(init, i, calculatorId);
          assert versions[i] == r.value && NoneApprovedAfter(versions, i, calculatorId);
        }
      }
    }
  }

  /**
   * Version ids are distinct, every version belongs to a stored calculator,
   * a calculator's current version is one of its own versions, and versions
   * are numbered 1.0, 1.1, ... per calculator.
   */
  ghost predicate Consistent(calculators: map<string, CalculatorRecord>, versions: seq<VersionRecord>) {
    DistinctIds(versions)
    && (forall i :: 0 <= i < |versions| ==> versions[i].calculatorId in calculators)
    && (forall c :: c in calculators && Current(calculators[c]).Some? ==>
          IndexOf(versions, Current(calculators[c]).value).Some?
          && versions[IndexOf(versions, Current(calculators[c]).value).value].calculatorId == c)
    && Numbered(versions)
  }

  /** Changing the status (and approver) of one version keeps the tables consistent. */
  lemma RestatusKeepsConsistent(calculators: map<string, CalculatorRecord>, versions: seq<VersionRecord>, i: nat, v: VersionRecord)
    requires Consistent(calculators, versions) && i < |versions|
    requires v.id == versions[i].id && v.calculatorId == versions[i].calculatorId && v.version == versions[i].version
    ensures SameKeys(versions, versions[i := v])
    ensures forall x :: IndexOf(versions[i := v], x) == IndexOf(versions, x)
    ensures Consistent(calculators, versions[i := v])
  {
    var after := versions[i := v];
    assert SameKeys(versions, after);
    NumberedSameKeys(versions, after);
    forall x ensures IndexOf(after, x) == IndexOf(versions, x) {
      IndexOfSameKeys(versions, after, x);
    }
  }

  /** Making one of a calculator's own versions current keeps the tables consistent. */
  lemma MakeCurrentKeepsConsistent(calculators: map<string, CalculatorRecord>, versions: seq<VersionRecord>, i: nat)
    requires Consistent(calculators, versions) && i < |versions|
    ensures var c := versions[i].calculatorId;
      Consistent(calculators[c := calculators[c].(currentVersion := Some(versions[i].id), isActive := true)], versions)
  {
    IndexOfDistinct(versions, i);
  }

  /** Appending a freshly numbered version with a fresh id keeps the tables consistent. */
  lemma AppendKeepsConsistent(calculators: map<string, CalculatorRecord>, versions: seq<VersionRecord>, v: VersionRecord)
    requires Consistent(calculators, versions) && v.calculatorId in calculators
    requires forall w :: w in versions ==> w.id != v.id
    requires v.version == NthVersion(CountFor(versions, v.calculatorId))
    ensures Consistent(calculators, versions + [v])
  {
    NumberedAppend(versions, v);
    forall x | x != v.id
      ensures IndexOf(versions + [v], x) == IndexOf(versions, x)
    {
      IndexOfAppend(versions, v, x);
    }
  }

  /**
   * get_active_version on the tables: the calculator's current version when
   * one is set, otherwise its newest approved version, otherwise none. The
   * current version is returned whatever its status.
   */
  function ActiveVersion(calculators: map<string, CalculatorRecord>, versions: seq<VersionRecord>, calculatorId: string)
    : (r: Option<VersionRecord>)
    ensures Consistent(calculators, versions) && r.Some? ==> r.value.calculatorId == calculatorId && r.value in versions
    ensures !(calculatorId in calculators && Current(calculators[calculatorId]).Some?) ==>
      (r.Some? <==> exists v :: v in versions && v.calculatorId == calculatorId && v.status == Approved)
    ensures !(calculatorId in calculators && Current(calculators[calculatorId]).Some?) && r.Some? ==>
      r.value.status == Approved && r.value.calculatorId == calculatorId
    ensures !(calculatorId in calculators && Current(calculators[calculatorId]).Some?) && r.Some? ==>
      exists i: nat :: i < |versions| && versions[i] == r.value && NoneApprovedAfter(versions, i, calculatorId)
  {
    if calculatorId !in calculators || Current(calculators[calculatorId]).None? then
      LatestApprovedIsNewest(versions, calculatorId);
      LatestApproved(versions, calculatorId)
    else
      FindVersion(versions, Current(calculators[calculatorId]).value)
  }

  /** After approval the approved version is the one its calculator runs. */
  lemma ApprovedIsActive(calculators: map<string, CalculatorRecord>, versions: seq<VersionRecord>, i: nat, v: VersionRecord)
    requires Consistent(calculators, versions) && i < |versions| && versions[i].id != ""
    requires v.id == versions[i].id && v.calculatorId == versions[i].calculatorId && v.version == versions[i].version
    ensures var c := v.calculatorId;
      ActiveVersion(calculators[c := calculators[c].(currentVersion := Some(v.id), isActive := true)], versions[i := v], c) == Some(v)
  {
    RestatusKeepsConsistent(calculators, versions, i, v);
    IndexOfDistinct(versions, i);
  }

  /** A deprecated version stays the one a calculator runs while it is current. */
  lemma DeprecatedStaysActive(calculators: map<string, CalculatorRecord>, versions: seq<VersionRecord>, i: nat, v: VersionRecord)
    requires Consistent(calculators, versions) && i < |versions|
    requires v.id == versions[i].id && v.calculatorId == versions[i].calculatorId && v.version == versions[i].version
    ensures forall c :: c in calculators && Current(calculators[c]) == Some(v.id) ==>
      ActiveVersion(calculators, versions[i := v], c) == Some(v)
  {
    RestatusKeepsConsistent(calculators, versions, i, v);
    IndexOfDistinct(versions, i);
  }

  // ------------------------------------------------------------ the store

  class Store {
    var calculators: map<string, CalculatorRecord>
    var versions: seq<VersionRecord>
    var conversations: map<string, ConversationRecord>

    /**
     * Version ids are distinct, every version belongs to a stored
     * calculator, a calculator's current version is one of its own versions,
     * and versions are numbered 1.0, 1.1, ... per calculator.
     */
    ghost predicate Valid()
      reads this
    {
      Consistent(calculators, versions)
    }

    constructor()
      ensures calculators == map[] && versions == [] && conversations == map[]
      ensures Valid()
    {
      calculators, versions, conversations := map[], [], map[];
    }

    /** create_calculator: a new calculator starts inactive, with no current version. */
    method CreateCalculator(id: string, name: string, category: string, description: Option<string>)
      returns (c: CalculatorRecord)
      requires Valid() && id !in calculators
      modifies this
      ensures !c.isActive && c.currentVersion.None? && c.name == name && c.category == category && c.description == description
      ensures calculators == old(calculators)[id := c]
      ensures versions == old(versions) && conversations == old(conversations)
      ensures Valid()
    {
      c := CalculatorRecord(name, category, description, false, None);
      calculators := calculators[id := c];
    }

    /**
     * create_calculator_version: numbered after the calculator's newest
     * version (1.0 for the first), stored as a draft. A newest version whose
     * number is not an integer makes int() raise; nothing is stored then.
     */
    method CreateVersion(id: string, calculatorId: string, definition: CalculatorDefinition, createdBy: Option<string>)
      returns (r: Result<VersionRecord, string>)
      requires Valid() && calculatorId in calculators
      requires forall v :: v in versions ==> v.id != id
      modifies this
      ensures var number := NextVersionNumber(LatestNumberOf(old(versions), calculatorId));
        (number.Err? ==> r == Err(number.error) && versions == old(versions))
        && (number.Ok? ==> r == Ok(VersionRecord(id, calculatorId, number.value, definition, Draft, createdBy, None))
                           && versions == old(versions) + [r.value])
      ensures r.Ok? ==> r.value.status == Draft && r.value.version == NthVersion(CountFor(old(versions), calculatorId))
      ensures calculators == old(calculators) && conversations == old(conversations)
      ensures Valid()
    {
      var number := NextVersionNumber(LatestNumberOf(versions, calculatorId));
      if number.Err? {
        return Err(number.error);
      }
      NextVersionContinues(versions, calculatorId);
      var v := VersionRecord(id, calculatorId, number.value, definition, Draft, createdBy, None);
      AppendKeepsConsistent(calculators, versions, v);
      versions := versions + [v];
      r := Ok(v);
    }

    /**
     * get_active_version: the calculator's current version when one is set,
     * otherwise its newest approved version, otherwise none. The current
     * version is returned whatever its status.
     */
    function GetActiveVersion(calculatorId: string): (r: Option<VersionRecord>)
      reads this
      ensures r == ActiveVersion(calculators, versions, calculatorId)
    {
      ActiveVersion(calculators, versions, calculatorId)
    }

    /**
     * approve_version: the version becomes approved by `approvedBy`, and its
     * calculator makes it current and becomes active. An unknown id changes
     * nothing.
     */
    method ApproveVersion(id: string, approvedBy: Option<string>) returns (r: Option<VersionRecord>)
      requires Valid()
      modifies this
      ensures r.None? <==> IndexOf(old(versions), id).None?
      ensures r.None? ==> versions == old(versions) && calculators == old(calculators)
      ensures r.Some? ==>
        var i := IndexOf(old(versions), id).value;
        var c := old(versions)[i].calculatorId;
        r.value == old(versions)[i].(status := Approved, approvedBy := approvedBy)
        && versions == old(versions)[i := r.value]
        && calculators == old(calculators)[c := old(calculators)[c].(currentVersion := Some(id), isActive := true)]
      ensures r.Some? && id != "" ==> GetActiveVersion(r.value.calculatorId) == r
      ensures conversations == old(conversations)
      ensures Valid()
    {
      var found := IndexOf(versions, id);
      if found.None? {
        return None;
      }
      var i := found.value;
      var v := versions[i].(status := Approved, approvedBy := approvedBy);
      var c := v.calculatorId;
      RestatusKeepsConsistent(calculators, versions, i, v);
      if id != "" {
        ApprovedIsActive(calculators, versions, i, v);
      }
      versions := versions[i := v];
      MakeCurrentKeepsConsistent(calculators, versions, i);
      calculators := calculators[c := calculators[c].(currentVersion := Some(id), isActive := true)];
      r := Some(v);
    }

    /** deprecate_version: only the version's status changes; a calculator using it keeps it current. */
    method DeprecateVersion(id: string) returns (r: Option<VersionRecord>)
      requires Valid()
      modifies this
      ensures r.None? <==> IndexOf(old(versions), id).None?
      ensures r.None? ==> versions == old(versions)
      ensures r.Some? ==>
        var i := IndexOf(old(versions), id).value;
        r.value == old(versions)[i].(status := Deprecated) && versions == old(versions)[i := r.value]
      ensures calculators == old(calculators) && conversations == old(conversations)
      ensures forall c :: c in calculators && Current(calculators[c]) == Some(id) ==> GetActiveVersion(c) == r
      ensures Valid()
    {
      var found := IndexOf(versions, id);
      if found.None? {
        return None;
      }
      var i := found.value;
      var v := versions[i].(status := Deprecated);
      RestatusKeepsConsistent(calculators, versions, i, v);
      DeprecatedStaysActive(calculators, versions, i, v);
      versions := versions[i := v];
      r := Some(v);
    }

    /** add_conversation_message: exactly one message is appended after the earlier ones. */
    method AddConversationMessage(id: string, role: string, content: string) returns (r: Option<ConversationRecord>)
      requires Valid()
      modifies this
      ensures Valid()
      ensures id !in old(conversations) ==> r.None? && conversations == old(conversations)
      ensures id in old(conversations) ==>
        r == Some(old(conversations)[id].(messages := old(conversations)[id].messages + [StoredMessage(role, content)]))
        && conversations == old(conversations)[id := r.value]
      ensures calculators == old(calculators) && versions == old(versions)
    {
      if id !in conversations {
        return None;
      }
      var conversation := conversations[id];
      conversation := conversation.(messages := conversation.messages + [StoredMessage(role, content)]);
      conversations := conversations[id := conversation];
      r := Some(conversation);
    }
  }
}
