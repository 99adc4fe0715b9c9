/**
 * One-time operator grants (`gateway/authorization.py`): the specification keeps one entry per exact
 * action; the store keeps two tables with unique constraints.
 */
module Authorization {
  import opened GatewayModels
  import opened Wrappers

  /** The exact pending action: all six columns of the unique constraint. */
  datatype Binding = Binding(runId: RunId, interaction: Interaction, requestSha: Digest, action: Action)

  datatype Entry = Entry(original: string, reference: string, consumed: bool, recovered: seq<string>)

  type Grants = map<Binding, Entry>

  datatype GrantError =
    | InvalidReference | AlreadyGranted | ActionMismatch | NotStranded | StaleReference | UsedReference | Denied | NotGrantable

  predicate IsWordChar(c: char) { 'A' <= c <= 'Z' || 'a' <= c <= 'z' || '0' <= c <= '9' }

  /** `_CONFIRMATION_REFERENCE_RE` */
  predicate ValidReference(s: string) {
    && 3 <= |s| <= 256 && IsWordChar(s[0])
    && forall i :: 1 <= i < |s| ==> IsWordChar(s[i]) || s[i] in "._:/-"
  }

  predicate ActionMatches(b: Binding) { b.action.id == b.interaction.id }

  // ---- the specification ---------------------------------------------------------------

  function Issue(g: Grants, b: Binding, reference: string): Result<Grants, GrantError> {
    if !ValidReference(reference) then Err(InvalidReference)
    else if b in g then
      if g[b].original == reference && g[b].reference == reference && !g[b].consumed then Ok(g) else Err(AlreadyGranted)
    else Ok(g[b := Entry(reference, reference, false, [])])
  }

  function Recover(g: Grants, b: Binding, reference: string): Result<Grants, GrantError> {
    if !ValidReference(reference) then Err(InvalidReference)
    else if !ActionMatches(b) then Err(ActionMismatch)
    else if b !in g || !g[b].consumed then Err(NotStranded)
    else if reference == g[b].reference then Err(StaleReference)
    else if reference in g[b].recovered then Err(UsedReference)
    else Ok(g[b := Entry(g[b].original, reference, false, g[b].recovered + [reference])])
  }

  function Authorize(g: Grants, b: Binding): Result<Grants, GrantError> {
    if !ActionMatches(b) || b !in g || g[b].consumed then Err(Denied)
    else Ok(g[b := g[b].(consumed := true)])
  }

  /** Authorizations a binding has had, as read from its grant: one per recovery, and one if consumed now. */
  function Used(g: Grants, b: Binding): nat {
    if b in g then |g[b].recovered| + (if g[b].consumed then 1 else 0) else 0
  }

  ghost predicate DistinctStrings(s: seq<string>) { forall i, j :: 0 <= i < j < |s| ==> s[i] != s[j] }

  ghost predicate EntryValid(e: Entry) {
    && DistinctStrings(e.recovered)
    && e.reference == (if e.recovered == [] then e.original else e.recovered[|e.recovered| - 1])
  }

  ghost predicate GrantsValid(g: Grants) { forall b :: b in g ==> EntryValid(g[b]) }

  function After(g: Grants, r: Result<Grants, GrantError>): Grants { if r.Ok? then r.value else g }

  const UPPER := "ABCDEFGHIJKLMNOPQRSTUVWXYZ"
  const LOWER := "abcdefghijklmnopqrstuvwxyz"
  const DIGITS := "0123456789"

  ghost predicate LetterOrDigit(c: char) { c in UPPER || c in LOWER || c in DIGITS }

  /** A reference is a letter or digit followed by 2 to 255 letters, digits, dots, underscores, colons, slashes or dashes. */
  lemma ReferenceFormat(s: string)
    ensures ValidReference(s) <==> 3 <= |s| <= 256 && LetterOrDigit(s[0]) && forall c :: c in s ==> LetterOrDigit(c) || c in "._:/-"
  {
    forall c: char ensures IsWordChar(c) <==> LetterOrDigit(c) { Upper(c); Lower(c); Digits(c); }
    hide IsWordChar, LetterOrDigit;
    if 3 <= |s| { assert forall c :: c in s ==> c == s[0] || exists i :: 1 <= i < |s| && s[i] == c; }
  }

  lemma Upper(c: char)
    ensures 'A' <= c <= 'Z' <==> c in UPPER
  {
    if 'A' <= c <= 'Z' { assert UPPER[c as int - 'A' as int] == c; }
  }

  lemma Lower(c: char)
    ensures 'a' <= c <= 'z' <==> c in LOWER
  {
    if 'a' <= c <= 'z' { assert LOWER[c as int - 'a' as int] == c; }
  }

  lemma Digits(c: char)
    ensures '0' <= c <= '9' <==> c in DIGITS
  {
    if '0' <= c <= '9' { assert DIGITS[c as int - '0' as int] == c; }
  }

  /** What a recovered or newly issued grant leaves in the ledger, in the fields of its entry. */
  ghost predicate Recovering(before: Grants, after: Grants, b: Binding, reference: string, ok: bool) {
    && (ok <==>
          && ValidReference(reference) && b.action.id == b.interaction.id
          && b in before && before[b].consumed && before[b].reference != reference && reference !in before[b].recovered)
    && (!ok ==> after == before)
    && (ok ==> after == before[b := Entry(before[b].original, reference, false, before[b].recovered + [reference])])
  }

  /** A second issue changes nothing: it is granted only as the repetition of a first one that nothing has touched since. */
  ghost predicate Issuing(before: Grants, after: Grants, b: Binding, reference: string, ok: bool) {
    && (ok <==>
          && ValidReference(reference)
          && (b in before ==> before[b].original == reference == before[b].reference && !before[b].consumed))
    && (!ok ==> after == before)
    && (ok ==> after == if b in before then before else before[b := Entry(reference, reference, false, [])])
  }

  /** Repeating an issue is harmless; neither another reference nor a consumed or recovered grant can be issued. */
  lemma IssueReplays(g: Grants, b: Binding, reference: string, other: string)
    requires ActionMatches(b) && Issue(g, b, reference).Ok?
    requires other != reference && ValidReference(other)
    ensures var issued := Issue(g, b, reference).value;
            && Issue(issued, b, reference) == Ok(issued) && Issue(issued, b, other) == Err(AlreadyGranted)
            && Authorize(issued, b).Ok?
            && var used := Authorize(issued, b).value;
               && Issue(used, b, reference) == Err(AlreadyGranted)
               && (other !in issued[b].recovered ==>
                     && Recover(used, b, other).Ok?
                     && Issue(Recover(used, b, other).value, b, reference) == Err(AlreadyGranted)
                     && Issue(Recover(used, b, other).value, b, other) == Err(AlreadyGranted)
                     && Authorize(Recover(used, b, other).value, b).Ok?)
  {
    hide ValidReference;
  }

  /** Only an authorization changes how often a binding was used, and only its own. */
  lemma IssueAccounts(g: Grants, b: Binding, reference: string)
    requires GrantsValid(g)
    ensures GrantsValid(After(g, Issue(g, b, reference)))
    ensures forall c :: Used(After(g, Issue(g, b, reference)), c) == Used(g, c)
  {
    hide ValidReference;
  }

  lemma RecoverAccounts(g: Grants, b: Binding, reference: string)
    requires GrantsValid(g)
    ensures GrantsValid(After(g, Recover(g, b, reference)))
    ensures forall c :: Used(After(g, Recover(g, b, reference)), c) == Used(g, c)
  {
    hide ValidReference;
    if Recover(g, b, reference).Ok? {
      var e := After(g, Recover(g, b, reference))[b];
      assert EntryValid(e);
      hide EntryValid;
      assert forall c :: c != b && c in g ==> EntryValid(g[c]);
    }
  }

  lemma AuthorizeAccounts(g: Grants, b: Binding)
    requires GrantsValid(g)
    ensures GrantsValid(After(g, Authorize(g, b)))
    ensures forall c :: Used(After(g, Authorize(g, b)), c) == Used(g, c) + (if c == b && Authorize(g, b).Ok? then 1 else 0)
  {
  }

  /** An action is authorized exactly when it answers its interaction and has a grant that is not used up. */
  lemma AuthorizesIff(g: Grants, b: Binding)
    ensures Authorize(g, b) == if b.action.id == b.interaction.id && b in g && !g[b].consumed
                               then Ok(g[b := Entry(g[b].original, g[b].reference, true, g[b].recovered)]) else Err(Denied)
  {
  }

  /**
   * Which references a recovery takes. The original one is among them exactly when an earlier
   * recovery replaced it and none has brought it back: only the current reference and the earlier
   * recoveries are compared.
   */
  lemma RecoveryTakes(g: Grants, b: Binding, reference: string)
    requires GrantsValid(g) && b in g && g[b].consumed && ActionMatches(b) && ValidReference(reference)
    ensures Recover(g, b, reference).Ok? <==>
              reference !in g[b].recovered && !(g[b].recovered == [] && reference == g[b].original)
    ensures reference == g[b].original ==>
              (Recover(g, b, reference).Ok? <==> g[b].recovered != [] && g[b].original !in g[b].recovered)
  {
  }

  /** Issued, consumed and recovered once, then consumed and recovered under the original reference again. */
  lemma OriginalComesBack(b: Binding)
    requires ActionMatches(b)
    ensures var issued := Issue(map[], b, "ref0");
            issued.Ok? &&
            var used := Authorize(issued.value, b);
            used.Ok? && Recover(used.value, b, "ref0") == Err(StaleReference) &&
            var recovered := Recover(used.value, b, "ref1");
            recovered.Ok? &&
            var again := Authorize(recovered.value, b);
            again.Ok? && Recover(again.value, b, "ref1") == Err(StaleReference) &&
            Recover(again.value, b, "ref0") == Ok(map[b := Entry("ref0", "ref0", false, ["ref1", "ref0"])])
  {
    assert ValidReference("ref0") && ValidReference("ref1") && "ref0"[3] != "ref1"[3];
    hide ValidReference, ActionMatches;
    var issued: Grants := map[b := Entry("ref0", "ref0", false, [])];
    var used: Grants := map[b := Entry("ref0", "ref0", true, [])];
    var recovered: Grants := map[b := Entry("ref0", "ref1", false, ["ref1"])];
    var again: Grants := map[b := Entry("ref0", "ref1", true, ["ref1"])];
    assert issued[b := used[b]] == used && used[b := recovered[b]] == recovered && recovered[b := again[b]] == again;
    assert Issue(map[], b, "ref0") == Ok(issued);
    assert Authorize(issued, b) == Ok(used);
    assert [] + ["ref1"] == ["ref1"];
    assert Recover(used, b, "ref1") == Ok(recovered);
    assert Authorize(recovered, b) == Ok(again);
    var back: Grants := map[b := Entry("ref0", "ref0", false, ["ref1", "ref0"])];
    assert ["ref1"] + ["ref0"] == ["ref1", "ref0"] && again[b := back[b]] == back;
  }

  // ---- the store -----------------------------------------------------------------------

  /** The grant ID hashes the binding with the reference it was issued under. */
  datatype GrantId = GrantId(binding: Binding, reference: string)

  datatype RecoveryId = RecoveryId(grantId: GrantId, previous: string, reference: string)

  datatype GrantRow = GrantRow(binding: Binding, reference: string, consumed: bool)

  datatype RecoveryRow = RecoveryRow(recoveryId: RecoveryId, grantId: GrantId, previous: string, reference: string)

  datatype Receipt = Receipt(grantId: GrantId, binding: Binding, reference: string)

  function RecoveryReferences(rows: seq<RecoveryRow>, id: GrantId): seq<string> {
    if rows == [] then []
    else
      var last := rows[|rows| - 1];
      RecoveryReferences(rows[..|rows| - 1], id) + if last.grantId == id then [last.reference] else []
  }

  lemma {:induction false} RecoveryReferencesMembers(rows: seq<RecoveryRow>, id: GrantId, reference: string)
    ensures reference in RecoveryReferences(rows, id) <==> exists r :: r in rows && r.grantId == id && r.reference == reference
  {
    if rows != [] {
      var init, last := rows[..|rows| - 1], rows[|rows| - 1];
      RecoveryReferencesMembers(init, id, reference);
      assert rows == init + [last];
    }
  }

  type GrantTable = map<GrantId, GrantRow>

  ghost predicate TablesValid(grants: GrantTable, recoveries: seq<RecoveryRow>) {
    && (forall id :: id in grants ==> id.binding == grants[id].binding)
    && (forall i, j :: i in grants && j in grants && i.binding == j.binding ==> i == j)
    && (forall r :: r in recoveries ==> r.grantId in grants)
  }

  function EntryOf(id: GrantId, row: GrantRow, recoveries: seq<RecoveryRow>): Entry {
    Entry(id.reference, row.reference, row.consumed, RecoveryReferences(recoveries, id))
  }

  ghost function Abstract(grants: GrantTable, recoveries: seq<RecoveryRow>): Grants
    requires TablesValid(grants, recoveries)
  {
    map id | id in grants :: id.binding := EntryOf(id, grants[id], recoveries)
  }

  lemma AbstractAt(grants: GrantTable, recoveries: seq<RecoveryRow>, b: Binding)
    requires TablesValid(grants, recoveries)
    ensures b in Abstract(grants, recoveries) <==> exists id :: id in grants && id.binding == b
    ensures forall id :: id in grants && id.binding == b ==> Abstract(grants, recoveries)[b] == EntryOf(id, grants[id], recoveries)
  {
    hide EntryOf;
    var a := Abstract(grants, recoveries);
    if id :| id in grants && id.binding == b {
      assert id.binding in a;
    }
  }

  /** Writing one grant row changes one entry, whatever happens to the recoveries of that grant. */
  lemma AbstractPut(grants: GrantTable, before: seq<RecoveryRow>, id: GrantId, row: GrantRow, after: seq<RecoveryRow>)
    requires TablesValid(grants, before) && id.binding == row.binding
    requires forall i :: i in grants && i.binding == id.binding ==> i == id
    requires forall r :: r in after ==> r in before || r.grantId == id
    requires forall i :: i != id ==> RecoveryReferences(after, i) == RecoveryReferences(before, i)
    ensures TablesValid(grants[id := row], after)
    ensures Abstract(grants[id := row], after) == Abstract(grants, before)[id.binding := EntryOf(id, row, after)]
  {
    PutKeepsTables(grants, before, id, row, after);
    var a, z := Abstract(grants, before), Abstract(grants[id := row], after);
    hide TablesValid, Abstract;
    forall b
      ensures b in z <==> b in a || b == id.binding
      ensures b in z ==> z[b] == a[id.binding := EntryOf(id, row, after)][b]
    {
      PutAt(grants, before, id, row, after, b);
    }
  }

  lemma PutKeepsTables(grants: GrantTable, before: seq<RecoveryRow>, id: GrantId, row: GrantRow, after: seq<RecoveryRow>)
    requires TablesValid(grants, before) && id.binding == row.binding
    requires forall i :: i in grants && i.binding == id.binding ==> i == id
    requires forall r :: r in after ==> r in before || r.grantId == id
    ensures TablesValid(grants[id := row], after)
  {
  }

  lemma PutAt(grants: GrantTable, before: seq<RecoveryRow>, id: GrantId, row: GrantRow, after: seq<RecoveryRow>, b: Binding)
    requires TablesValid(grants, before) && TablesValid(grants[id := row], after)
    requires forall i :: i in grants && i.binding == id.binding ==> i == id
    requires forall i :: i != id ==> RecoveryReferences(after, i) == RecoveryReferences(before, i)
    ensures var a, z := Abstract(grants, before), Abstract(grants[id := row], after);
            && (b in z <==> b in a || b == id.binding)
            && (b in z ==> z[b] == a[id.binding := EntryOf(id, row, after)][b])
  {
    AbstractAt(grants, before, b);
    AbstractAt(grants[id := row], after, b);
    hide TablesValid, Abstract, RecoveryReferences;
    if i :| i in grants && i.binding == b { assert i in grants[id := row]; }
    if b == id.binding { assert id in grants[id := row]; }
  }

  lemma NoRecoveries(grants: GrantTable, recoveries: seq<RecoveryRow>, id: GrantId)
    requires TablesValid(grants, recoveries) && id !in grants
    ensures RecoveryReferences(recoveries, id) == []
  {
    var refs := RecoveryReferences(recoveries, id);
    if refs != [] {
      RecoveryReferencesMembers(recoveries, id, refs[0]);
    }
  }

  class SqliteOneTimeActionGrantStore {
    /** `one_time_action_grants` by primary key, and `one_time_action_grant_recoveries` in insertion order. */
    var grants: GrantTable
    var recoveries: seq<RecoveryRow>

    ghost predicate Valid()
      reads this
    {
      TablesValid(grants, recoveries)
    }

    ghost function Contents(): Grants
      requires Valid()
      reads this
    {
      Abstract(grants, recoveries)
    }

    constructor ()
      ensures Valid() && Contents() == map[]
    {
      grants, recoveries := map[], [];
    }

    /** `SELECT ... WHERE` all columns of the binding match, then `fetchone`. */
    method Select(b: Binding) returns (found: Option<GrantId>)
      requires Valid()
      ensures found.Some? <==> b in Contents()
      ensures found.Some? ==> found.value in grants && found.value.binding == b &&
                              Contents()[b] == EntryOf(found.value, grants[found.value], recoveries)
      ensures found.None? ==> forall id :: id in grants ==> id.binding != b
    {
      AbstractAt(grants, recoveries, b);
      var rows := set id | id in grants && grants[id].binding == b;
      if rows == {} {
        assert forall id :: id in grants && id.binding == b ==> id in rows;
        return None;
      }
      var id :| id in rows;
      return Some(id);
    }

    method IssueGrant(b: Binding, reference: string) returns (r: Result<Receipt, GrantError>)
      requires Valid()
      modifies this
      ensures Valid()
      ensures Contents() == After(old(Contents()), Issue(old(Contents()), b, reference))
      ensures Outcome(r, Issue(old(Contents()), b, reference), b, reference)
      ensures r.Ok? ==> r.value.grantId == GrantId(b, reference)
    {
      hide TablesValid, Abstract, ValidReference;
      if !ValidReference(reference) { return Err(InvalidReference); }
      var grantId := GrantId(b, reference);
      var existing := Select(b);
      if existing.Some? {
        var id := existing.value;
        if id == grantId && grants[id].reference == reference && !grants[id].consumed {
          return Ok(Receipt(grantId, b, reference));
        }
        return Err(AlreadyGranted);
      }
      NoRecoveries(grants, recoveries, grantId);
      AbstractPut(grants, recoveries, grantId, GrantRow(b, reference, false), recoveries);
      grants := grants[grantId := GrantRow(b, reference, false)];
      return Ok(Receipt(grantId, b, reference));
    }

    /** The insertion into the recovery table fails on a used reference, which undoes the transaction. */
    method RecoverConsumedGrant(b: Binding, reference: string) returns (r: Result<Receipt, GrantError>)
      requires Valid()
      modifies this
      ensures Valid()
      ensures Contents() == After(old(Contents()), Recover(old(Contents()), b, reference))
      ensures Outcome(r, Recover(old(Contents()), b, reference), b, reference)
    {
      hide Abstract, ValidReference;
      if !ValidReference(reference) { return Err(InvalidReference); }
      if !ActionMatches(b) { return Err(ActionMismatch); }
      var existing := Select(b);
      if existing.None? || !grants[existing.value].consumed { return Err(NotStranded); }
      var id := existing.value;
      var previous := grants[id].reference;
      if reference == previous { return Err(StaleReference); }
      var row := RecoveryRow(RecoveryId(id, previous, reference), id, previous, reference);
      RecoveryReferencesMembers(recoveries, id, reference);
      if exists x :: x in recoveries && x.grantId == id && x.reference == reference {
        return Err(UsedReference);
      }
      var after := recoveries + [row];
      assert after[..|after| - 1] == recoveries;
      AbstractPut(grants, recoveries, id, GrantRow(b, reference, false), after);
      recoveries := after;
      grants := grants[id := grants[id].(reference := reference, consumed := false)];
      return Ok(Receipt(id, b, reference));
    }

    method AuthorizeAndConsume(b: Binding) returns (r: Result<(), GrantError>)
      requires Valid()
      modifies this
      ensures Valid()
      ensures Contents() == After(old(Contents()), Authorize(old(Contents()), b))
      ensures r.Ok? == Authorize(old(Contents()), b).Ok?
    {
      hide Abstract;
      if !ActionMatches(b) { return Err(Denied); }
      var existing := Select(b);
      if existing.None? || grants[existing.value].consumed { return Err(Denied); }
      var id := existing.value;
      AbstractPut(grants, recoveries, id, GrantRow(b, grants[id].reference, true), recoveries);
      grants := grants[id := grants[id].(consumed := true)];
      return Ok(());
    }
  }

  ghost predicate Outcome(r: Result<Receipt, GrantError>, spec: Result<Grants, GrantError>, b: Binding, reference: string) {
    && r.Ok? == spec.Ok?
    && (r.Ok? ==> r.value.binding == b && r.value.reference == reference)
    && (r.Err? ==> r.error == spec.error)
  }

  // ---- the operator's issuer -------------------------------------------------------------

  /** `RequirementFreezeGrantIssuer.grant_record`: the one action an operator can grant on a record. */
  function GrantableBinding(record: Record, expectedManifest: Digest): Option<Binding> {
    if !record.state.InteractionRequired? then None
    else
      var i := record.state.interaction;
      if !i.Approval? || !i.approvalKind.RequirementFreeze? || i.inputSha != expectedManifest then None
      else Some(Binding(record.runId, i, record.requestSha, Approve(i.id)))
  }

  /** The record waits for the approval of exactly this manifest. */
  ghost predicate Freezes(record: Record, expectedManifest: Digest) {
    && record.state.InteractionRequired?
    && record.state.interaction.Approval?
    && record.state.interaction.approvalKind == RequirementFreeze
    && record.state.interaction.inputSha == expectedManifest
  }

  method GrantRecord(store: SqliteOneTimeActionGrantStore, record: Record, reference: string, expectedManifest: Digest, recover: bool)
    returns (r: Result<Receipt, GrantError>)
    requires store.Valid()
    modifies store
    ensures store.Valid()
    ensures !Freezes(record, expectedManifest) ==> r == Err(NotGrantable) && store.Contents() == old(store.Contents())
    ensures Freezes(record, expectedManifest) ==>
              var b := Binding(record.runId, record.state.interaction, record.requestSha, Approve(record.state.interaction.id));
              && (if recover then Recovering(old(store.Contents()), store.Contents(), b, reference, r.Ok?)
                  else Issuing(old(store.Contents()), store.Contents(), b, reference, r.Ok?))
              && store.Contents() == After(old(store.Contents()),
                                           if recover then Recover(old(store.Contents()), b, reference)
                                           else Issue(old(store.Contents()), b, reference))
              && (r.Ok? ==> r.value.binding == b && r.value.reference == reference)
  {
    var b := GrantableBinding(record, expectedManifest);
    hide ValidReference;
    if b.None? { return Err(NotGrantable); }
    if recover {
      r := store.RecoverConsumedGrant(b.value, reference);
    } else {
      r := store.IssueGrant(b.value, reference);
    }
  }

  /** After an accepted grant, the granted action is authorized once and not twice. */
  lemma GrantAuthorizesOnce(g: Grants, record: Record, manifest: Digest, reference: string)
    requires Freezes(record, manifest)
    requires var b := Binding(record.runId, record.state.interaction, record.requestSha, Approve(record.state.interaction.id));
             Issue(g, b, reference).Ok? || Recover(g, b, reference).Ok?
    ensures var b := Binding(record.runId, record.state.interaction, record.requestSha, Approve(record.state.interaction.id));
            var granted := if Issue(g, b, reference).Ok? then Issue(g, b, reference).value else Recover(g, b, reference).value;
            && Authorize(granted, b).Ok?
            && Authorize(Authorize(granted, b).value, b).Err?
  {
  }
}
