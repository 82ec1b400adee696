/** The session tree and the replay of a log with compactions (agent-engine/defaults/session.go). */
module Session {
  import opened Wrappers
  import opened Messages

  datatype Kind =
    | MessageEntry(message: Option<Message>)
    | ModelChange(provider: string, modelId: string)
    | PromptEntry(prompt: Option<string>)
    | BranchSummary(summary: string)
    | CompactionEntry(compactionSummary: string, replacedIds: seq<string>)
    | ThinkingChange(level: string)
    | OtherEntry

  datatype Entry = Entry(id: string, parentId: string, kind: Kind)

  datatype PathError = DuplicateId(id: string) | Cycle(id: string) | MissingEntry(id: string)

  // ---------------------------------------------------------------- the path to a leaf

  predicate DistinctIds(entries: seq<Entry>) {
    forall i, j | 0 <= i < j < |entries| :: entries[i].id != entries[j].id
  }

  function ById(entries: seq<Entry>): map<string, Entry> {
    if entries == [] then map[]
    else ById(entries[..|entries| - 1])[entries[|entries| - 1].id := entries[|entries| - 1]]
  }

  /** Every key is the id of its entry. */
  lemma {:induction false} ByIdFinds(entries: seq<Entry>, id: string) returns (k: nat)
    requires id in ById(entries)
    ensures k < |entries| && ById(entries)[id] == entries[k] && entries[k].id == id
  {
    k := |entries| - 1;
    if entries[k].id != id {
      k := ByIdFinds(entries[..k], id);
    }
  }

  lemma {:induction false} ByIdHas(entries: seq<Entry>, k: nat)
    requires k < |entries|
    ensures entries[k].id in ById(entries)
  {
    if k < |entries| - 1 {
      ByIdHas(entries[..|entries| - 1], k);
    }
  }

  /** Following parents from `id`, the root is reached in at most `n` steps. */
  predicate ReachesRoot(m: map<string, Entry>, id: string, n: nat)
    decreases n
  {
    id == "" || (n > 0 && id in m && ReachesRoot(m, m[id].parentId, n - 1))
  }

  /** Entries from a leaf upwards: each is the parent of the one before. */
  predicate Upwards(m: map<string, Entry>, leaf: string, path: seq<Entry>) {
    (forall k | 0 <= k < |path| :: OnPath(m, leaf, path, k)) && DistinctIds(path)
  }

  predicate OnPath(m: map<string, Entry>, leaf: string, path: seq<Entry>, k: nat)
    requires k < |path|
  {
    path[k].id in m && m[path[k].id] == path[k] && path[k].id != "" && path[k].id == ParentBefore(leaf, path, k)
  }

  lemma OneFurtherUp(m: map<string, Entry>, leaf: string, path: seq<Entry>, e: Entry)
    requires Upwards(m, leaf, path) && e.id in m && m[e.id] == e && e.id != ""
               && e.id == ParentBefore(leaf, path, |path|)
    requires forall k | 0 <= k < |path| :: path[k].id != e.id
    ensures Upwards(m, leaf, path + [e])
  {
    forall k | 0 <= k < |path + [e]|
      ensures OnPath(m, leaf, path + [e], k)
    {
      assert k < |path| ==> OnPath(m, leaf, path, k);
    }
  }

  /** The id that the path asks for at position `k`. */
  function ParentBefore(leaf: string, path: seq<Entry>, k: nat): string
    requires k <= |path|
  {
    if k == 0 then leaf else path[k - 1].parentId
  }

  lemma {:induction false} ReachingFromTheLeaf(m: map<string, Entry>, leaf: string, path: seq<Entry>, k: nat, n: nat)
    requires Upwards(m, leaf, path) && k <= |path| && k <= n
    ensures ReachesRoot(m, leaf, n) <==> ReachesRoot(m, ParentBefore(leaf, path, k), n - k)
  {
    if k > 0 {
      ReachingFromTheLeaf(m, leaf, path, k - 1, n);
      assert OnPath(m, leaf, path, k - 1);
    }
  }

  lemma {:induction false} MoreSteps(m: map<string, Entry>, id: string, n: nat, n': nat)
    requires ReachesRoot(m, id, n) && n <= n'
    ensures ReachesRoot(m, id, n')
    decreases n
  {
    if id != "" {
      MoreSteps(m, m[id].parentId, n - 1, n' - 1);
    }
  }

  /** From a path whose last parent is on it, no number of steps reaches a root. */
  lemma {:induction false} CycleHasNoRoot(m: map<string, Entry>, leaf: string, path: seq<Entry>, back: nat, k: nat,
                                          n: nat)
    requires Upwards(m, leaf, path) && back < |path| && k < |path| && path[|path| - 1].parentId == path[back].id
    ensures !ReachesRoot(m, path[k].id, n)
    decreases n
  {
    hide DistinctIds;
    assert OnPath(m, leaf, path, k);
    if n > 0 {
      var next := if k == |path| - 1 then back else k + 1;
      assert OnPath(m, leaf, path, next);
      CycleHasNoRoot(m, leaf, path, back, next, n - 1);
    }
  }

  /** A root-to-leaf path: parents come before children, and nothing occurs twice. */
  predicate RootToLeaf(entries: seq<Entry>, leaf: string, path: seq<Entry>) {
    && (leaf == "" <==> path == [])
    && (path != [] ==> path[0].parentId == "" && path[|path| - 1].id == leaf)
    && (forall k | 0 < k < |path| :: ParentAndChild(path, k))
    && (forall k | 0 <= k < |path| :: path[k] in entries)
    && DistinctIds(path)
  }

  predicate ParentAndChild(path: seq<Entry>, k: nat)
    requires 0 < k < |path|
  {
    path[k].parentId == path[k - 1].id
  }

  function Reversed(s: seq<Entry>): (r: seq<Entry>)
    ensures |r| == |s| && forall k | 0 <= k < |s| :: r[k] == s[|s| - 1 - k]
  {
    if s == [] then [] else [s[|s| - 1]] + Reversed(s[..|s| - 1])
  }

  lemma ReversedIsDistinct(path: seq<Entry>)
    requires DistinctIds(path)
    ensures DistinctIds(Reversed(path))
  {
  }

  lemma ReversedIsRootToLeaf(entries: seq<Entry>, m: map<string, Entry>, leaf: string, path: seq<Entry>)
    requires m == ById(entries) && Upwards(m, leaf, path) && ParentBefore(leaf, path, |path|) == ""
    ensures RootToLeaf(entries, leaf, Reversed(path))
  {
    hide ById, DistinctIds;
    var r := Reversed(path);
    ReversedIsDistinct(path);
    forall k | 0 <= k < |path|
      ensures r[k] in entries && (k > 0 ==> ParentAndChild(r, k))
    {
      var i := |path| - 1 - k;
      assert OnPath(m, leaf, path, i);
      var _ := ByIdFinds(entries, path[i].id);
      assert k > 0 ==> OnPath(m, leaf, path, i + 1);
    }
    assert path != [] ==> OnPath(m, leaf, path, 0);
  }

  method IndexEntries(entries: seq<Entry>) returns (r: Result<map<string, Entry>, PathError>)
    ensures r.Ok? <==> DistinctIds(entries)
    ensures r.Ok? ==> r.value == ById(entries)
    ensures r.Err? ==> r.error.DuplicateId?
  {
    hide DistinctIds, ById;
    var byId: map<string, Entry> := map[];
    NothingIndexed(entries);
    for i := 0 to |entries|
      invariant byId == ById(entries[..i]) && DistinctIds(entries[..i])
    {
      OneMoreIndexed(entries, i);
      if entries[i].id in byId {
        return Err(DuplicateId(entries[i].id));
      }
      byId := byId[entries[i].id := entries[i]];
    }
    assert entries[..|entries|] == entries;
    r := Ok(byId);
  }

  lemma NothingIndexed(entries: seq<Entry>)
    ensures ById(entries[..0]) == map[] && DistinctIds(entries[..0])
  {
  }

  lemma OneMoreIndexed(entries: seq<Entry>, i: nat)
    requires i < |entries| && DistinctIds(entries[..i])
    ensures ById(entries[..i + 1]) == ById(entries[..i])[entries[i].id := entries[i]]
    ensures entries[i].id in ById(entries[..i]) ==> !DistinctIds(entries)
    ensures entries[i].id !in ById(entries[..i]) ==> DistinctIds(entries[..i + 1])
  {
    assert entries[..i + 1][..i] == entries[..i];
    if entries[i].id in ById(entries[..i]) {
      var k := ByIdFinds(entries[..i], entries[i].id);
      assert entries[k].id == entries[i].id;
    } else {
      forall k | 0 <= k < i
        ensures entries[k].id != entries[i].id
      {
        ByIdHas(entries[..i], k);
      }
    }
  }

  /** Terminates on every parent graph: succeeds exactly when ids are distinct and the parents of the leaf
      lead to a root. */
  method PathToEntry(entries: seq<Entry>, leaf: string) returns (r: Result<seq<Entry>, PathError>)
    ensures r.Err? && r.error.DuplicateId? <==> !DistinctIds(entries)
    ensures r.Ok? <==> DistinctIds(entries) && exists n :: ReachesRoot(ById(entries), leaf, n)
    ensures r.Ok? ==> RootToLeaf(entries, leaf, r.value)
    ensures r.Err? && !r.error.DuplicateId? ==>
              (r.error.MissingEntry? <==> forall k | 0 <= k < |entries| :: entries[k].id != r.error.id)
  {
    hide DistinctIds, ById, Upwards, RootToLeaf;
    var indexed := IndexEntries(entries);
    if indexed.Err? {
      return Err(indexed.error);
    }
    var byId := indexed.value;
    KeysAreIds(entries);
    var up := Climb(byId, leaf);
    if up.Err? {
      KeysAreAllIds(entries, up.error.id);
      return up;
    }
    var path := up.value;
    ReachingFromTheLeaf(byId, leaf, path, |path|, |path|);
    ReversedIsRootToLeaf(entries, byId, leaf, path);
    path := Reverse(path);
    r := Ok(path);
  }

  lemma KeysAreIds(entries: seq<Entry>)
    ensures forall id | id in ById(entries) :: ById(entries)[id].id == id
  {
    forall id | id in ById(entries)
      ensures ById(entries)[id].id == id
    {
      var _ := ByIdFinds(entries, id);
    }
  }

  lemma KeysAreAllIds(entries: seq<Entry>, id: string)
    ensures id !in ById(entries) <==> forall k | 0 <= k < |entries| :: entries[k].id != id
  {
    if id in ById(entries) {
      var k := ByIdFinds(entries, id);
    }
    forall k | 0 <= k < |entries|
      ensures entries[k].id in ById(entries)
    {
      ByIdHas(entries, k);
    }
  }

  method Reverse(up: seq<Entry>) returns (path: seq<Entry>)
    ensures path == Reversed(up)
  {
    path := up;
    var i, j := 0, |path| - 1;
    while i < j
      invariant 0 <= i <= j + 1 <= |path| && j == |path| - 1 - i && |path| == |up|
      invariant forall k | 0 <= k < i || j < k < |path| :: path[k] == up[|up| - 1 - k]
      invariant forall k | i <= k <= j :: path[k] == up[k]
    {
      path := path[i := path[j]][j := path[i]];
      i, j := i + 1, j - 1;
    }
    assert forall k | 0 <= k < |up| :: path[k] == up[|up| - 1 - k];
  }

  /** Collects the entries from the leaf to the root. */
  method Climb(byId: map<string, Entry>, leaf: string) returns (r: Result<seq<Entry>, PathError>)
    requires forall id | id in byId :: byId[id].id == id
    ensures r.Ok? ==> Upwards(byId, leaf, r.value) && ParentBefore(leaf, r.value, |r.value|) == ""
    ensures r.Err? ==> !r.error.DuplicateId? && forall n :: !ReachesRoot(byId, leaf, n)
    ensures r.Err? ==> (r.error.MissingEntry? <==> r.error.id !in byId)
  {
    hide DistinctIds, Upwards, ReachesRoot, OccursIn;
    var path: seq<Entry> := [];
    var seen: set<string> := {};
    var current := leaf;
    EmptyPath(byId, leaf);
    while current != ""
      invariant Upwards(byId, leaf, path) && current == ParentBefore(leaf, path, |path|)
      invariant forall k | 0 <= k < |path| :: path[k].id in seen
      invariant forall id | id in seen :: OccursIn(path, id)
      invariant seen <= byId.Keys
      decreases |byId.Keys - seen|
    {
      if current in seen {
        assert current in byId;
        NoWayFromACycle(byId, leaf, path);
        return Err(Cycle(current));
      }
      if current !in byId {
        NoWayThroughAGap(byId, leaf, path);
        return Err(MissingEntry(current));
      }
      OneFurtherUp(byId, leaf, path, byId[current]);
      SmallerSet(byId.Keys - (seen + {current}), byId.Keys - seen, current);
      seen := seen + {current};
      OccursStill(path, byId[current]);
      path := path + [byId[current]];
      current := byId[current].parentId;
    }
    r := Ok(path);
  }

  predicate OccursIn(path: seq<Entry>, id: string) {
    exists k | 0 <= k < |path| :: path[k].id == id
  }

  lemma OccursStill(path: seq<Entry>, e: Entry)
    ensures forall id | OccursIn(path, id) :: OccursIn(path + [e], id)
    ensures OccursIn(path + [e], e.id)
  {
    assert (path + [e])[|path|] == e;
    forall id | OccursIn(path, id)
      ensures OccursIn(path + [e], id)
    {
      var k :| 0 <= k < |path| && path[k].id == id;
      assert (path + [e])[k].id == id;
    }
  }

  lemma EmptyPath(m: map<string, Entry>, leaf: string)
    ensures Upwards(m, leaf, [])
  {
  }

  lemma NoWayFromACycle(m: map<string, Entry>, leaf: string, path: seq<Entry>)
    requires Upwards(m, leaf, path) && OccursIn(path, ParentBefore(leaf, path, |path|))
    ensures forall n :: !ReachesRoot(m, leaf, n)
  {
    hide DistinctIds;
    assert OnPath(m, leaf, path, 0);
    var back :| 0 <= back < |path| && path[back].id == ParentBefore(leaf, path, |path|);
    forall n: nat
      ensures !ReachesRoot(m, leaf, n)
    {
      CycleHasNoRoot(m, leaf, path, back, 0, n);
    }
  }

  lemma NoWayThroughAGap(m: map<string, Entry>, leaf: string, path: seq<Entry>)
    requires Upwards(m, leaf, path) && ParentBefore(leaf, path, |path|) !in m && ParentBefore(leaf, path, |path|) != ""
    ensures forall n :: !ReachesRoot(m, leaf, n)
  {
    forall n: nat
      ensures !ReachesRoot(m, leaf, n)
    {
      if ReachesRoot(m, leaf, n) {
        MoreSteps(m, leaf, n, n + |path| + 1);
        ReachingFromTheLeaf(m, leaf, path, |path|, n + |path| + 1);
      }
    }
  }

  lemma SmallerSet(a: set<string>, b: set<string>, x: string)
    requires a == b - {x} && x in b
    ensures |a| < |b|
  {
  }

  // ---------------------------------------------------------------- replay

  datatype Row = Row(id: string, message: Message)

  function SummaryRow(id: string, text: string): Row {
    Row(id, UserMessage(Plain(text), 0))
  }

  /** Whether an entry puts a row into the conversation. */
  predicate MakesRow(e: Entry) {
    e.kind.BranchSummary? || e.kind.CompactionEntry? || (e.kind.MessageEntry? && e.kind.message.Some?)
  }

  function RowOf(e: Entry): Row
    requires MakesRow(e)
  {
    match e.kind
    case MessageEntry(message) => Row(e.id, message.value)
    case BranchSummary(summary) =>
      SummaryRow(e.id, "The following is a summary of a branch that this conversation came back from:\n" + summary)
    case CompactionEntry(summary, _) => SummaryRow(e.id, summary)
  }

  /** An entry shows as its own message, or as a user message with the text of its summary. */
  predicate Shows(e: Entry, m: Message) {
    match e.kind
    case MessageEntry(Some(message)) => m == message
    case BranchSummary(summary) =>
      m == UserMessage(Plain("The following is a summary of a branch that this conversation came back from:\n"
          + summary), 0)
    case CompactionEntry(summary, _) => m == UserMessage(Plain(summary), 0)
    case _ => false
  }

  /** Exactly the entries that show as something have a row. */
  lemma RowShows(e: Entry)
    ensures MakesRow(e) <==> exists m :: Shows(e, m)
    ensures MakesRow(e) ==> Shows(e, RowOf(e).message)
  {
    assert MakesRow(e) ==> Shows(e, RowOf(e).message);
  }

  /** Entry `k` is a compaction that lists the id of entry `i`. */
  predicate Replaces(entries: seq<Entry>, k: nat, i: nat)
    requires k < |entries| && i < |entries|
  {
    entries[k].kind.CompactionEntry? && entries[i].id in entries[k].kind.replacedIds
  }

  /** The row of entry `i` is there after the first `t` entries: no later compaction lists its id. */
  ghost predicate Survives(entries: seq<Entry>, i: nat, t: nat)
    requires t <= |entries|
  {
    i < t && MakesRow(entries[i]) && forall k | i < k < t :: !Replaces(entries, k, i)
  }

  /** Where the row of entry `k` stands: at `k`, but a compaction at the first of the rows it replaces. */
  ghost function Place(entries: seq<Entry>, k: nat): (p: nat)
    requires k < |entries|
    ensures p <= k
    decreases k, 1
  {
    FirstReplaced(entries, k, k)
  }

  /** The least place of a row among the first `n` that compaction `k` replaces, or `k`. */
  ghost function FirstReplaced(entries: seq<Entry>, k: nat, n: nat): (p: nat)
    requires n <= k < |entries|
    ensures p <= k
    decreases k, 0, n
  {
    if n == 0 then k
    else
      var rest := FirstReplaced(entries, k, n - 1);
      if Replaces(entries, k, n - 1) && Survives(entries, n - 1, k) && Place(entries, n - 1) < rest
      then Place(entries, n - 1) else rest
  }

  /** The direct account of a conversation: `src` names the entries whose rows make it up. */
  ghost predicate Conversation(entries: seq<Entry>, t: nat, src: seq<nat>)
    requires t <= |entries|
  {
    && (forall k :: k in src <==> Survives(entries, k, t))
    && Ordered(entries, src)
  }

  ghost predicate Ordered(entries: seq<Entry>, a: seq<nat>) {
    forall i, j | 0 <= i < j < |a| :: Before(entries, a[i], a[j])
  }

  ghost predicate Before(entries: seq<Entry>, x: nat, y: nat) {
    x < |entries| && y < |entries| && Place(entries, x) < Place(entries, y)
  }

  lemma {:induction false} FirstReplacedIsLeast(entries: seq<Entry>, k: nat, n: nat, c: nat)
    requires c < n <= k < |entries| && Replaces(entries, k, c) && Survives(entries, c, k)
    ensures FirstReplaced(entries, k, n) <= Place(entries, c)
  {
    if c < n - 1 {
      FirstReplacedIsLeast(entries, k, n - 1, c);
    }
  }

  lemma {:induction false} FirstReplacedIsOne(entries: seq<Entry>, k: nat, n: nat) returns (c: Option<nat>)
    requires n <= k < |entries|
    ensures c.None? ==> FirstReplaced(entries, k, n) == k
    ensures c.Some? ==> c.value < n && Replaces(entries, k, c.value) && Survives(entries, c.value, k)
                        && FirstReplaced(entries, k, n) == Place(entries, c.value)
  {
    if n == 0 {
      return None;
    }
    c := FirstReplacedIsOne(entries, k, n - 1);
    if Replaces(entries, k, n - 1) && Survives(entries, n - 1, k)
        && Place(entries, n - 1) < FirstReplaced(entries, k, n - 1) {
      c := Some(n - 1);
    }
  }

  /** The first row that a compaction replaces gives it its place. */
  lemma PlaceOfFirstHit(entries: seq<Entry>, k: nat, prev: seq<nat>, i: nat)
    requires k < |entries| && Conversation(entries, k, prev) && i < |prev| && prev[i] < k
               && Replaces(entries, k, prev[i])
    requires forall j | 0 <= j < i && prev[j] < k :: !Replaces(entries, k, prev[j])
    ensures Place(entries, k) == Place(entries, prev[i])
  {
    assert prev[i] in prev;
    FirstReplacedIsLeast(entries, k, k, prev[i]);
    var c := FirstReplacedIsOne(entries, k, k);
    if c.Some? {
      assert c.value in prev;
      var j :| 0 <= j < |prev| && prev[j] == c.value;
    }
  }

  lemma PlaceWithoutHit(entries: seq<Entry>, k: nat, prev: seq<nat>)
    requires k < |entries| && Conversation(entries, k, prev)
    requires forall j | 0 <= j < |prev| && prev[j] < k :: !Replaces(entries, k, prev[j])
    ensures Place(entries, k) == k
  {
    forall x: nat | Survives(entries, x, k)
      ensures !Replaces(entries, k, x)
    {
      assert x in prev;
    }
    var c := FirstReplacedIsOne(entries, k, k);
  }

  /** The part of a compaction that has seen `done` of the rows `prev`. */
  ghost predicate Compacting(entries: seq<Entry>, k: nat, prev: seq<nat>, done: nat, next: seq<nat>, inserted: bool)
    requires k < |entries| && done <= |prev|
  {
    && (forall j | 0 <= j < |prev| :: prev[j] < k)
    && (forall x :: x in next <==> (inserted && x == k) || (x < k && x in prev[..done] && !Replaces(entries, k, x)))
    && (inserted <==> exists j | 0 <= j < done :: Replaces(entries, k, prev[j]))
    && Ordered(entries, next)
    && (forall i, j | 0 <= i < |next| && done <= j < |prev| :: Before(entries, next[i], prev[j]))
  }

  /** One row is kept, replaced by the summary, or dropped. */
  lemma CompactingStep(entries: seq<Entry>, k: nat, prev: seq<nat>, done: nat, next: seq<nat>, inserted: bool)
    returns (next': seq<nat>, inserted': bool)
    requires k < |entries| && Conversation(entries, k, prev) && done < |prev|
               && Compacting(entries, k, prev, done, next, inserted)
    ensures Compacting(entries, k, prev, done + 1, next', inserted')
    ensures next' == if !Replaces(entries, k, prev[done]) then next + [prev[done]] else if inserted then next
              else next + [k]
    ensures inserted' == (inserted || Replaces(entries, k, prev[done]))
  {
    assert prev[..done + 1] == prev[..done] + [prev[done]];
    inserted' := inserted || Replaces(entries, k, prev[done]);
    if !Replaces(entries, k, prev[done]) {
      next' := next + [prev[done]];
    } else if inserted {
      next' := next;
    } else {
      next' := next + [k];
      PlaceOfFirstHit(entries, k, prev, done);
    }
  }

  /** What the compaction leaves is the conversation after it; without a hit the summary comes last. */
  lemma CompactionDone(entries: seq<Entry>, k: nat, prev: seq<nat>, next: seq<nat>, inserted: bool)
    returns (next': seq<nat>)
    requires k < |entries| && entries[k].kind.CompactionEntry? && Conversation(entries, k, prev)
    requires Compacting(entries, k, prev, |prev|, next, inserted)
    ensures Conversation(entries, k + 1, next')
    ensures next' == if inserted then next else next + [k]
  {
    next' := if inserted then next else next + [k];
    assert prev[..|prev|] == prev;
    if !inserted {
      PlaceWithoutHit(entries, k, prev);
      forall j | 0 <= j < |next|
        ensures Before(entries, next[j], k)
      {
        assert next[j] in next;
      }
    }
    forall x: nat
      ensures x in next' <==> Survives(entries, x, k + 1)
    {
      assert Survives(entries, x, k) ==> x in prev && x < k;
      if x < k && Survives(entries, x, k) && !Replaces(entries, k, x) {
        assert Survives(entries, x, k + 1);
      }
      if Survives(entries, x, k + 1) && x < k {
        assert Survives(entries, x, k);
      }
    }
  }

  /** Any other entry adds its row, if it has one, at its own place. */
  lemma PlainEntry(entries: seq<Entry>, k: nat, prev: seq<nat>)
    requires k < |entries| && !entries[k].kind.CompactionEntry? && Conversation(entries, k, prev)
    ensures Conversation(entries, k + 1, if MakesRow(entries[k]) then prev + [k] else prev)
  {
    PlaceWithoutHit(entries, k, prev);
    var next := if MakesRow(entries[k]) then prev + [k] else prev;
    forall j | 0 <= j < |prev|
      ensures Before(entries, prev[j], k)
    {
      assert prev[j] in prev;
    }
    forall x: nat
      ensures x in next <==> Survives(entries, x, k + 1)
    {
      assert Survives(entries, x, k) ==> x in prev && x < k;
      if Survives(entries, x, k) {
        assert Survives(entries, x, k + 1);
      }
      if Survives(entries, x, k + 1) && x < k {
        assert Survives(entries, x, k);
      }
    }
  }

  /** The rows of a conversation, in order. */
  ghost predicate RowsAre(entries: seq<Entry>, src: seq<nat>, rows: seq<Row>) {
    && |rows| == |src|
    && forall j | 0 <= j < |src| :: src[j] < |entries| && MakesRow(entries[src[j]]) && rows[j] == RowOf(entries[src[j]])
  }

  /** Replaces the rows whose ids the compaction lists by one summary row. */
  method CompactRows(rows: seq<Row>, entries: seq<Entry>, k: nat, ghost src: seq<nat>)
    returns (retained: seq<Row>, ghost next: seq<nat>)
    requires k < |entries| && entries[k].kind.CompactionEntry?
    requires Conversation(entries, k, src) && RowsAre(entries, src, rows)
    ensures Conversation(entries, k + 1, next) && RowsAre(entries, next, retained)
  {
    hide Conversation, Compacting, RowsAre;
    var summary := SummaryRow(entries[k].id, entries[k].kind.compactionSummary);
    var insertedSummary := false;
    retained, next := [], [];
    NothingCompacted(entries, k, src);
    RowsLength(entries, src, rows);
    for i := 0 to |rows|
      invariant i <= |src| && Compacting(entries, k, src, i, next, insertedSummary) && RowsAre(entries, next, retained)
    {
      next, insertedSummary, retained := CompactRow(rows, i, summary, entries, k, src, next, insertedSummary, retained);
    }
    RowAdded(entries, next, retained, k);
    next := CompactionDone(entries, k, src, next, insertedSummary);
    if !insertedSummary {
      retained := retained + [summary];
    }
  }

  /** One row is kept, replaced by the summary, or dropped. */
  method CompactRow(rows: seq<Row>, i: nat, summary: Row, entries: seq<Entry>, k: nat, ghost src: seq<nat>,
                    ghost next: seq<nat>, inserted: bool, retained: seq<Row>)
    returns (ghost next': seq<nat>, inserted': bool, retained': seq<Row>)
    requires k < |entries| && entries[k].kind.CompactionEntry? && summary == RowOf(entries[k])
    requires Conversation(entries, k, src) && RowsAre(entries, src, rows) && i < |rows| && i < |src|
    requires Compacting(entries, k, src, i, next, inserted) && RowsAre(entries, next, retained)
    ensures i < |src| && Compacting(entries, k, src, i + 1, next', inserted') && RowsAre(entries, next', retained')
  {
    hide Conversation, Compacting, RowsAre;
    RowAt(entries, src, rows, i);
    RowAdded(entries, next, retained, src[i]);
    RowAdded(entries, next, retained, k);
    ghost var done;
    next', done := CompactingStep(entries, k, src, i, next, inserted);
    retained', inserted' := retained, inserted;
    if rows[i].id !in entries[k].kind.replacedIds {
      retained' := retained + [rows[i]];
    } else if !inserted {
      retained' := retained + [summary];
      inserted' := true;
    }
  }

  lemma RowAt(entries: seq<Entry>, src: seq<nat>, rows: seq<Row>, i: nat)
    requires RowsAre(entries, src, rows) && i < |rows|
    ensures i < |src| && src[i] < |entries| && MakesRow(entries[src[i]]) && rows[i] == RowOf(entries[src[i]])
  {
  }

  lemma RowsLength(entries: seq<Entry>, src: seq<nat>, rows: seq<Row>)
    requires RowsAre(entries, src, rows)
    ensures |src| == |rows|
  {
  }

  lemma RowAdded(entries: seq<Entry>, src: seq<nat>, rows: seq<Row>, k: nat)
    requires RowsAre(entries, src, rows) && k < |entries| && MakesRow(entries[k])
    ensures RowsAre(entries, src + [k], rows + [RowOf(entries[k])])
  {
  }

  lemma NothingCompacted(entries: seq<Entry>, k: nat, src: seq<nat>)
    requires k < |entries| && Conversation(entries, k, src)
    ensures Compacting(entries, k, src, 0, [], false) && RowsAre(entries, [], [])
  {
    assert forall j | 0 <= j < |src| :: src[j] in src;
  }

  /** One entry changes the rows. */
  method ReplayRow(rows: seq<Row>, entries: seq<Entry>, k: nat, ghost src: seq<nat>)
    returns (rows': seq<Row>, ghost src': seq<nat>)
    requires k < |entries| && Conversation(entries, k, src) && RowsAre(entries, src, rows)
    ensures Conversation(entries, k + 1, src') && RowsAre(entries, src', rows')
  {
    hide Conversation;
    if entries[k].kind.CompactionEntry? {
      rows', src' := CompactRows(rows, entries, k, src);
      return;
    }
    PlainEntry(entries, k, src);
    src' := if MakesRow(entries[k]) then src + [k] else src;
    rows' := rows;
    if entries[k].kind.MessageEntry? && entries[k].kind.message.Some? {
      rows' := rows + [Row(entries[k].id, entries[k].kind.message.value)];
    } else if entries[k].kind.BranchSummary? {
      rows' := rows + [SummaryRow(entries[k].id,
        "The following is a summary of a branch that this conversation came back from:\n" + entries[k].kind.summary)];
    }
  }

  datatype SessionContext = SessionContext(messages: seq<Message>, thinkingLevel: string,
                                           model: Option<(string, string)>, systemPrompt: string)

  predicate SetsModel(e: Entry) {
    e.kind.ModelChange? && (e.kind.provider != "" || e.kind.modelId != "")
  }

  predicate SetsPrompt(e: Entry) {
    e.kind.PromptEntry? && e.kind.prompt.Some?
  }

  /** The level of the last entry that sets one. */
  ghost predicate ThinkingIs(entries: seq<Entry>, n: nat, level: string)
    requires n <= |entries|
  {
    if forall j | 0 <= j < n :: !entries[j].kind.ThinkingChange? then level == ""
    else exists k | 0 <= k < n :: entries[k].kind == ThinkingChange(level) && forall j | k < j < n ::
        !entries[j].kind.ThinkingChange?
  }

  ghost predicate ModelIs(entries: seq<Entry>, n: nat, model: Option<(string, string)>)
    requires n <= |entries|
  {
    if model.None? then forall j | 0 <= j < n :: !SetsModel(entries[j])
    else exists k | 0 <= k < n :: SetsModel(entries[k]) && entries[k].kind == ModelChange(model.value.0, model.value.1)
                                  && forall j | k < j < n :: !SetsModel(entries[j])
  }

  ghost predicate PromptIs(entries: seq<Entry>, n: nat, prompt: string)
    requires n <= |entries|
  {
    if forall j | 0 <= j < n :: !SetsPrompt(entries[j]) then prompt == ""
    else exists k | 0 <= k < n :: entries[k].kind == PromptEntry(Some(prompt)) && forall j | k < j < n ::
        !SetsPrompt(entries[j])
  }

  ghost predicate SettingsOf(entries: seq<Entry>, n: nat, c: SessionContext)
    requires n <= |entries|
  {
    ThinkingIs(entries, n, c.thinkingLevel) && ModelIs(entries, n, c.model) && PromptIs(entries, n, c.systemPrompt)
  }

  lemma NextThinking(entries: seq<Entry>, n: nat, level: string)
    requires n < |entries| && ThinkingIs(entries, n, level)
    ensures ThinkingIs(entries, n + 1, if entries[n].kind.ThinkingChange? then entries[n].kind.level else level)
  {
    if forall j | 0 <= j < n :: !entries[j].kind.ThinkingChange? {
    } else {
      var k :| 0 <= k < n && entries[k].kind == ThinkingChange(level) && forall j | k < j < n ::
          !entries[j].kind.ThinkingChange?;
      assert entries[n].kind.ThinkingChange? || forall j | k < j < n + 1 :: !entries[j].kind.ThinkingChange?;
    }
  }

  lemma NextModel(entries: seq<Entry>, n: nat, model: Option<(string, string)>)
    requires n < |entries| && ModelIs(entries, n, model)
    ensures ModelIs(entries, n + 1,
              if SetsModel(entries[n]) then Some((entries[n].kind.provider, entries[n].kind.modelId)) else model)
  {
    if !SetsModel(entries[n]) && model.Some? {
      var k :| 0 <= k < n && SetsModel(entries[k]) && entries[k].kind == ModelChange(model.value.0, model.value.1)
               && forall j | k < j < n :: !SetsModel(entries[j]);
      assert forall j | k < j < n + 1 :: !SetsModel(entries[j]);
    }
  }

  lemma NextPrompt(entries: seq<Entry>, n: nat, prompt: string)
    requires n < |entries| && PromptIs(entries, n, prompt)
    ensures PromptIs(entries, n + 1, if SetsPrompt(entries[n]) then entries[n].kind.prompt.value else prompt)
  {
    if forall j | 0 <= j < n :: !SetsPrompt(entries[j]) {
    } else {
      var k :| 0 <= k < n && entries[k].kind == PromptEntry(Some(prompt)) && forall j | k < j < n ::
          !SetsPrompt(entries[j]);
      assert SetsPrompt(entries[n]) || forall j | k < j < n + 1 :: !SetsPrompt(entries[j]);
    }
  }

  /** Replay yields exactly the surviving rows, ordered by place, and the last settings. */
  method ReplayEntries(entries: seq<Entry>) returns (c: SessionContext, ghost src: seq<nat>)
    ensures Conversation(entries, |entries|, src) && |c.messages| == |src|
    ensures forall j | 0 <= j < |src| ::
              src[j] < |entries| && Shows(entries[src[j]], c.messages[j])
    ensures SettingsOf(entries, |entries|, c)
  {
    hide Conversation, SettingsOf;
    var rows: seq<Row> := [];
    c := SessionContext([], "", None, "");
    src := [];
    EmptyConversation(entries);
    for i := 0 to |entries|
      invariant Conversation(entries, i, src) && RowsAre(entries, src, rows)
      invariant SettingsOf(entries, i, c)
    {
      rows, src := ReplayRow(rows, entries, i, src);
      c := ReplaySetting(entries, i, c);
    }
    var messages := MessagesOf(rows);
    SameSettings(entries, c, messages);
    forall j | 0 <= j < |src|
      ensures src[j] < |entries| && Shows(entries[src[j]], messages[j])
    {
      RowAt(entries, src, rows, j);
      RowShows(entries[src[j]]);
    }
    c := SessionContext(messages, c.thinkingLevel, c.model, c.systemPrompt);
  }

  method MessagesOf(rows: seq<Row>) returns (messages: seq<Message>)
    ensures |messages| == |rows| && forall j | 0 <= j < |rows| :: messages[j] == rows[j].message
  {
    messages := [];
    for i := 0 to |rows|
      invariant |messages| == i && forall j | 0 <= j < i :: messages[j] == rows[j].message
    {
      messages := messages + [rows[i].message];
    }
  }

  lemma SameSettings(entries: seq<Entry>, c: SessionContext, messages: seq<Message>)
    requires SettingsOf(entries, |entries|, c)
    ensures SettingsOf(entries, |entries|, SessionContext(messages, c.thinkingLevel, c.model, c.systemPrompt))
  {
  }

  lemma EmptyConversation(entries: seq<Entry>)
    ensures Conversation(entries, 0, []) && SettingsOf(entries, 0, SessionContext([], "", None, ""))
  {
  }

  method ReplaySetting(entries: seq<Entry>, k: nat, c: SessionContext) returns (c': SessionContext)
    requires k < |entries| && SettingsOf(entries, k, c)
    ensures SettingsOf(entries, k + 1, c')
  {
    hide ThinkingIs, ModelIs, PromptIs;
    NextThinking(entries, k, c.thinkingLevel);
    NextModel(entries, k, c.model);
    NextPrompt(entries, k, c.systemPrompt);
    var kind := entries[k].kind;
    c' := c;
    if kind.ThinkingChange? {
      c' := c.(thinkingLevel := kind.level);
    } else if kind.ModelChange? && (kind.provider != "" || kind.modelId != "") {
      c' := c.(model := Some((kind.provider, kind.modelId)));
    } else if kind.PromptEntry? && kind.prompt.Some? {
      c' := c.(systemPrompt := kind.prompt.value);
    }
  }

  lemma {:induction false} OneOrder(entries: seq<Entry>, a: seq<nat>, b: seq<nat>)
    requires Ordered(entries, a) && Ordered(entries, b) && forall x: nat :: x in a <==> x in b
    ensures a == b
  {
    hide Place;
    EmptyTogether(a, b);
    if a != [] {
      var m, n := |a| - 1, |b| - 1;
      assert a[m] in b && b[n] in a;
      LastIsGreatest(entries, a, b[n]);
      LastIsGreatest(entries, b, a[m]);
      LastOnce(entries, a);
      LastOnce(entries, b);
      forall x: nat
        ensures x in a[..m] <==> x in b[..n]
      {
        assert x in a <==> x in b;
      }
      OneOrder(entries, a[..m], b[..n]);
      assert a == a[..m] + [a[m]] && b == b[..n] + [b[n]];
    }
  }

  lemma EmptyTogether(a: seq<nat>, b: seq<nat>)
    requires forall x: nat :: x in a <==> x in b
    ensures a == [] <==> b == []
  {
    if a != [] {
      assert a[0] in a;
    }
    if b != [] {
      assert b[0] in b;
    }
  }

  lemma LastIsGreatest(entries: seq<Entry>, a: seq<nat>, x: nat)
    requires Ordered(entries, a) && x in a
    ensures x == a[|a| - 1] || Before(entries, x, a[|a| - 1])
  {
  }

  lemma LastOnce(entries: seq<Entry>, a: seq<nat>)
    requires Ordered(entries, a) && a != []
    ensures forall x: nat :: x in a[..|a| - 1] <==> x in a && x != a[|a| - 1]
  {
    assert a == a[..|a| - 1] + [a[|a| - 1]];
    forall k | 0 <= k < |a| - 1
      ensures a[k] != a[|a| - 1]
    {
      assert Before(entries, a[k], a[|a| - 1]);
    }
  }

  /** The account determines the conversation: there is only one. */
  lemma OneConversation(entries: seq<Entry>, t: nat, a: seq<nat>, b: seq<nat>)
    requires t <= |entries| && Conversation(entries, t, a) && Conversation(entries, t, b)
    ensures a == b
  {
    OneOrder(entries, a, b);
  }

  /** A row that no later compaction lists stays, and messages and branch summaries keep their log order. */
  lemma LogOrderKept(entries: seq<Entry>, src: seq<nat>, i: nat, j: nat)
    requires Conversation(entries, |entries|, src) && i < j < |entries|
    requires !entries[i].kind.CompactionEntry? && !entries[j].kind.CompactionEntry?
    requires Survives(entries, i, |entries|) && Survives(entries, j, |entries|)
    ensures exists a, b :: 0 <= a < b < |src| && src[a] == i && src[b] == j
  {
    PlainPlace(entries, i, i);
    PlainPlace(entries, j, j);
    assert i in src && j in src;
    var a :| 0 <= a < |src| && src[a] == i;
    var b :| 0 <= b < |src| && src[b] == j;
    OrderedIndices(entries, src, a, b);
  }

  lemma OrderedIndices(entries: seq<Entry>, src: seq<nat>, a: nat, b: nat)
    requires Ordered(entries, src) && a < |src| && b < |src| && Before(entries, src[a], src[b])
    ensures a < b
  {
    hide Place;
  }

  lemma {:induction false} PlainPlace(entries: seq<Entry>, k: nat, n: nat)
    requires n <= k < |entries| && !entries[k].kind.CompactionEntry?
    ensures FirstReplaced(entries, k, n) == k
  {
    if n > 0 {
      PlainPlace(entries, k, n - 1);
    }
  }
}
