/** «Undo all» of one job (`undo_all.py`, with `undo_project_operations` of `project_ops.py`): its saved operations are
    undone newest first, a later edit stops the chain, its interface preferences are put back, and the draft it
    created goes when nothing is left of it. */
module UndoAll {
  import opened Basics
  import opened JobTypes
  import opened JobUpdates

  /** A saved project operation: what the project was before it and after it. */
  datatype Operation = Operation(project: nat, before: nat, after: nat, undone: bool)

  datatype Store = Store(projects: map<nat, nat>, editable: set<nat>, operations: map<nat, Operation>)

  datatype Item = Item(turn: int, step: int, operation: nat, project: nat)

  datatype Preference = Preference(turn: int, step: int, previous: nat, saved: nat)

  // ---------------------------------------------------------------- what still stands

  /** The step an outcome names; an outcome out of range names an empty one. */
  function NamedStep(row: Row, o: Outcome): Option<Step> {
    StepAt(row.transcript, o.turn, o.step)
  }

  function ProjectOf(s: Option<Step>): Option<nat> {
    if s.None? then None
    else if s.value.applied.Some? && s.value.applied.value.project.Some? then s.value.applied.value.project
    else s.value.simulated
  }

  predicate Standing(row: Row, o: Outcome) {
    o.action == Applied && !Has(row.outcomes, o.turn, o.step, Undone)
  }

  function ItemOf(row: Row, o: Outcome): Option<Item> {
    if Standing(row, o) && o.operation.Some? && ProjectOf(NamedStep(row, o)).Some?
    then Some(Item(o.turn, o.step, o.operation.value, ProjectOf(NamedStep(row, o)).value))
    else None
  }

  function PreferenceOf(row: Row, o: Outcome): Option<Preference> {
    var s := NamedStep(row, o);
    if Standing(row, o) && s.Some? && s.value.kind == Interface && s.value.applied.Some?
       && s.value.applied.value.previous.Some?
    then Some(Preference(o.turn, o.step, s.value.applied.value.previous.value, s.value.applied.value.saved))
    else None
  }

  /** The items of the first n outcomes, newest first. */
  function Items(row: Row, n: nat): seq<Item>
    requires n <= |row.outcomes|
  {
    if n == 0 then []
    else (if ItemOf(row, row.outcomes[n - 1]).Some? then [ItemOf(row, row.outcomes[n - 1]).value] else [])
         + Items(row, n - 1)
  }

  function Preferences(row: Row, n: nat): seq<Preference>
    requires n <= |row.outcomes|
  {
    if n == 0 then []
    else (if PreferenceOf(row, row.outcomes[n - 1]).Some? then [PreferenceOf(row, row.outcomes[n - 1]).value] else [])
         + Preferences(row, n - 1)
  }

  function StandingItems(row: Row): seq<Item> {
    Items(row, |row.outcomes|)
  }

  function StandingPreferences(row: Row): seq<Preference> {
    Preferences(row, |row.outcomes|)
  }

  // ---------------------------------------------------------------- undoing

  /** The project service: it undoes an operation only while the project is exactly what the operation left. */
  function UndoOperation(s: Store, project: nat, operation: nat): Option<Store> {
    if project !in s.editable || project !in s.projects || operation !in s.operations
       || s.operations[operation].project != project then None
    else
      var op := s.operations[operation];
      if op.undone then Some(s)
      else if s.projects[project] != op.after then None
      else Some(s.(projects := s.projects[project := op.before],
                   operations := s.operations[operation := op.(undone := true)]))
  }

  /** The store after the chain, and how many items it undid. */
  function UndoChain(s: Store, items: seq<Item>): (r: (Store, nat))
    ensures r.1 <= |items|
    decreases |items|
  {
    if items == [] then (s, 0)
    else
      match UndoOperation(s, items[0].project, items[0].operation)
      case None => (s, 0)
      case Some(next) => var rest := UndoChain(next, items[1..]); (rest.0, rest.1 + 1)
  }

  /** The preferences after the restores, what was restored and how many were left as they are. */
  function RestoreAll(current: nat, prefs: seq<Preference>): (r: (nat, seq<Preference>, nat))
    decreases |prefs|
  {
    if prefs == [] then (current, [], 0)
    else if current != prefs[0].saved then
      var rest := RestoreAll(current, prefs[1..]);
      (rest.0, rest.1, rest.2 + 1)
    else
      var rest := RestoreAll(prefs[0].previous, prefs[1..]);
      (rest.0, [prefs[0]] + rest.1, rest.2)
  }

  function ItemEntries(items: seq<Item>): seq<Outcome> {
    seq(|items|, i requires 0 <= i < |items| =>
      Outcome(items[i].turn, items[i].step, Undone, Some(items[i].operation)))
  }

  function PreferenceEntries(prefs: seq<Preference>): seq<Outcome> {
    seq(|prefs|, i requires 0 <= i < |prefs| => Outcome(prefs[i].turn, prefs[i].step, Undone, None))
  }

  datatype DraftState = NoDraft | Removed | Kept | Untouched

  /** The work the job created: gone already, a draft without windows whose records allow its removal, or not. */
  datatype Draft = Draft(present: bool, isDraft: bool, windows: nat, free: bool)

  function RemoveEmptyDraft(d: Draft): (Draft, DraftState) {
    if !d.present then (d, Removed)
    else if !d.isDraft || d.windows > 0 || !d.free then (d, DraftState.Kept)
    else (d.(present := false), Removed)
  }

  datatype World = World(row: Row, store: Store, preferences: nat, created: Option<Draft>)

  datatype Answer = Answer(undone: nat, kept: nat, draft: DraftState)

  function UndoEverything(w: World): (World, Answer) {
    var items, prefs := StandingItems(w.row), StandingPreferences(w.row);
    var (store, n) := UndoChain(w.store, items);
    var (preferences, restored, left) := RestoreAll(w.preferences, prefs);
    var entries := ItemEntries(items[..n]) + PreferenceEntries(restored);
    var kept := left + if n < |items| then 1 else 0;
    var row := if entries == [] then w.row else RecordAssistantOutcomes(w.row, entries);
    if w.created.Some? && kept == 0 then
      var (draft, state) := RemoveEmptyDraft(w.created.value);
      (World(row, store, preferences, Some(draft)), Answer(|entries|, kept, state))
    else
      (World(row, store, preferences, w.created), Answer(|entries|, kept, if w.created.Some? then Untouched else NoDraft))
  }

  // ---------------------------------------------------------------- the loops

  class Workshop {
    var row: Row
    var store: Store
    var preferences: nat
    var created: Option<Draft>

    function State(): World
      reads this
    {
      World(row, store, preferences, created)
    }

    method FindItems() returns (found: seq<Item>)
      ensures found == StandingItems(row)
    {
      found := [];
      for i := 0 to |row.outcomes|
        invariant found == Items(row, i)
      {
        var item := ItemOf(row, row.outcomes[i]);
        if item.Some? {
          found := [item.value] + found;
        }
      }
    }

    method FindPreferences() returns (found: seq<Preference>)
      ensures found == StandingPreferences(row)
    {
      found := [];
      for i := 0 to |row.outcomes|
        invariant found == Preferences(row, i)
      {
        var p := PreferenceOf(row, row.outcomes[i]);
        if p.Some? {
          found := [p.value] + found;
        }
      }
    }

    method UndoItems(items: seq<Item>) returns (undone: nat)
      modifies this`store
      ensures (store, undone) == UndoChain(old(store), items)
    {
      undone := 0;
      while undone < |items|
        invariant undone <= |items|
        invariant UndoChain(old(store), items)
               == (UndoChain(store, items[undone..]).0, undone + UndoChain(store, items[undone..]).1)
      {
        var next := UndoOperation(store, items[undone].project, items[undone].operation);
        if next.None? {
          break;
        }
        assert items[undone..][1..] == items[undone + 1..];
        store := next.value;
        undone := undone + 1;
      }
    }

    method RestorePreferences(prefs: seq<Preference>) returns (restored: seq<Preference>, left: nat)
      modifies this`preferences
      ensures (preferences, restored, left) == RestoreAll(old(preferences), prefs)
    {
      restored, left := [], 0;
      assert prefs[0..] == prefs;
      assert [] + RestoreAll(preferences, prefs).1 == RestoreAll(preferences, prefs).1;
      for i := 0 to |prefs|
        invariant var rest := RestoreAll(preferences, prefs[i..]);
          RestoreAll(old(preferences), prefs) == (rest.0, restored + rest.1, left + rest.2)
      {
        assert prefs[i..][1..] == prefs[i + 1..];
        if preferences != prefs[i].saved {
          left := left + 1;
          continue;
        }
        ghost var later := RestoreAll(prefs[i].previous, prefs[i + 1..]).1;
        assert restored + ([prefs[i]] + later) == restored + [prefs[i]] + later;
        preferences := prefs[i].previous;
        restored := restored + [prefs[i]];
      }
      assert prefs[|prefs|..] == [] && restored + [] == restored;
    }

    method UndoAll() returns (answer: Answer)
      modifies this
      ensures (State(), answer) == UndoEverything(old(State()))
    {
      var items := FindItems();
      var n := UndoItems(items);
      var prefs := FindPreferences();
      var restored, left := RestorePreferences(prefs);
      var entries := ItemEntries(items[..n]) + PreferenceEntries(restored);
      if entries != [] {
        row := RecordAssistantOutcomes(row, entries);
      }
      var kept := left + if n < |items| then 1 else 0;
      var draft := if created.Some? then Untouched else NoDraft;
      if created.Some? && kept == 0 {
        var (after, state) := RemoveEmptyDraft(created.value);
        created := Some(after);
        draft := state;
      }
      answer := Answer(|entries|, kept, draft);
    }
  }

  // ---------------------------------------------------------------- the chain

  /** What the chain undid is a newest-first run: each step found its project as its operation had left it, or its
      operation undone already, and the next one was refused. */
  lemma {:induction false} ChainStopsAtTheFirstRefusal(s: Store, items: seq<Item>)
    ensures var (after, n) := UndoChain(s, items);
      && UndoChain(s, items[..n]) == (after, n)
      && (n < |items| ==> UndoOperation(after, items[n].project, items[n].operation).None?)
    decreases |items|
  {
    var (after, n) := UndoChain(s, items);
    if items != [] && n > 0 {
      var next := UndoOperation(s, items[0].project, items[0].operation).value;
      ChainStopsAtTheFirstRefusal(next, items[1..]);
      assert items[..n][1..] == items[1..][..n - 1];
    } else {
      assert items[..0] == [];
    }
  }

  /** The job's operations, oldest first, could be saved one after the other from these projects. */
  ghost predicate Plays(projects: map<nat, nat>, operations: map<nat, Operation>, items: seq<Item>) {
    items == []
    || (var op := items[0].operation;
        && op in operations && operations[op].project == items[0].project && !operations[op].undone
        && items[0].project in projects && projects[items[0].project] == operations[op].before
        && Plays(projects[items[0].project := operations[op].after], operations, items[1..]))
  }

  ghost function Played(projects: map<nat, nat>, operations: map<nat, Operation>, items: seq<Item>): map<nat, nat>
    requires Plays(projects, operations, items)
  {
    if items == [] then projects
    else Played(projects[items[0].project := operations[items[0].operation].after], operations, items[1..])
  }

  function Reverse<T>(s: seq<T>): seq<T> {
    if s == [] then [] else Reverse(s[1..]) + [s[0]]
  }

  ghost predicate DistinctOperations(items: seq<Item>) {
    forall i, j | 0 <= i < j < |items| :: items[i].operation != items[j].operation
  }

  lemma {:induction false} PlaysSplits(projects: map<nat, nat>, operations: map<nat, Operation>, a: seq<Item>, x: Item)
    requires Plays(projects, operations, a + [x])
    ensures Plays(projects, operations, a)
    ensures var mid := Played(projects, operations, a);
      && x.operation in operations && operations[x.operation].project == x.project && !operations[x.operation].undone
      && x.project in mid && mid[x.project] == operations[x.operation].before
      && Played(projects, operations, a + [x]) == mid[x.project := operations[x.operation].after]
    decreases |a|
  {
    if a == [] {
      assert a + [x] == [x] && [x][1..] == [];
    } else {
      assert (a + [x])[1..] == a[1..] + [x];
      PlaysSplits(projects[a[0].project := operations[a[0].operation].after], operations, a[1..], x);
    }
  }

  /** The same operations, but those listed, which may have been undone meanwhile. */
  ghost predicate SameBut(a: map<nat, Operation>, b: map<nat, Operation>, items: seq<Item>) {
    forall i | 0 <= i < |items| :: items[i].operation in a
      ==> items[i].operation in b && a[items[i].operation] == b[items[i].operation]
  }

  lemma {:induction false} PlayedKeepsProjects(projects: map<nat, nat>, operations: map<nat, Operation>, items: seq<Item>)
    requires Plays(projects, operations, items)
    ensures Played(projects, operations, items).Keys == projects.Keys
  {
    if items != [] {
      PlayedKeepsProjects(projects[items[0].project := operations[items[0].operation].after], operations, items[1..]);
    }
  }

  /** When nobody edited the projects after the job, undoing everything gives every project back its value from
      before the job, whatever projects its operations touched and in whatever order. */
  lemma {:induction false} UndoReturnsToTheStart(s: Store, start: map<nat, nat>, oldest: seq<Item>,
                                                 original: map<nat, Operation>)
    requires Plays(start, original, oldest) && s.projects == Played(start, original, oldest)
    requires SameBut(original, s.operations, oldest) && DistinctOperations(oldest)
    requires forall i | 0 <= i < |oldest| :: oldest[i].project in s.editable
    ensures var (after, n) := UndoChain(s, Reverse(oldest)); n == |oldest| && after.projects == start
    decreases |oldest|
  {
    ReverseLength(oldest);
    if oldest != [] {
      var k := |oldest| - 1;
      var older, x := oldest[..k], oldest[k];
      assert oldest == older + [x];
      PlaysSplits(start, original, older, x);
      PlayedKeepsProjects(start, original, older);
      ReverseLast(older, x);
      var next := UndoOperation(s, x.project, x.operation).value;
      assert next.projects == Played(start, original, older);
      UndoReturnsToTheStart(next, start, older, original);
      assert Reverse(oldest)[1..] == Reverse(older);
    }
  }

  lemma {:induction false} ReverseLength<T>(s: seq<T>)
    ensures |Reverse(s)| == |s|
  {
    if s != [] {
      ReverseLength(s[1..]);
    }
  }

  lemma {:induction false} ReverseLast<T>(s: seq<T>, x: T)
    ensures Reverse(s + [x]) == [x] + Reverse(s)
  {
    if s != [] {
      assert (s + [x])[1..] == s[1..] + [x];
      ReverseLast(s[1..], x);
    } else {
      assert s + [x] == [x];
    }
  }

  /** A project whose newest standing operation no longer matches it was edited since; the chain leaves it alone. */
  lemma {:induction false} LaterEditsAreNeverUndonePast(s: Store, items: seq<Item>, k: nat)
    requires k < |items| && UndoOperation(s, items[k].project, items[k].operation).None?
    requires forall i | 0 <= i < k :: items[i].project != items[k].project
    ensures var (after, n) := UndoChain(s, items);
      && n <= k
      && (items[k].project in s.projects ==>
            items[k].project in after.projects && after.projects[items[k].project] == s.projects[items[k].project])
    decreases k
  {
    if k > 0 {
      match UndoOperation(s, items[0].project, items[0].operation) {
        case None =>
        case Some(next) =>
          LaterEditsAreNeverUndonePast(next, items[1..], k - 1);
      }
    }
  }

  /** Preferences saved one over the other and not changed since all go back, to what they were before the first. */
  lemma {:induction false} PreferencesReturnToTheStart(current: nat, prefs: seq<Preference>)
    requires prefs != [] && current == prefs[0].saved
    requires forall i | 0 < i < |prefs| :: prefs[i - 1].previous == prefs[i].saved
    ensures RestoreAll(current, prefs) == (prefs[|prefs| - 1].previous, prefs, 0)
    decreases |prefs|
  {
    assert prefs == [prefs[0]] + prefs[1..];
    if |prefs| > 1 {
      assert prefs[0].previous == prefs[1].saved;
      PreferencesReturnToTheStart(prefs[0].previous, prefs[1..]);
    }
  }

  // ---------------------------------------------------------------- the whole call

  lemma {:induction false} ReverseTwice<T>(s: seq<T>)
    ensures Reverse(Reverse(s)) == s
  {
    if s != [] {
      ReverseTwice(s[1..]);
      ReverseLast(Reverse(s[1..]), s[0]);
    }
  }

  /** The job's m newest standing operations took its projects from `edited` to where they are now. */
  ghost predicate EditedBefore(w: World, edited: map<nat, nat>, original: map<nat, Operation>, m: nat) {
    m <= |StandingItems(w.row)|
    && var newer := Reverse(StandingItems(w.row)[..m]);
      && Plays(edited, original, newer) && w.store.projects == Played(edited, original, newer)
      && SameBut(original, w.store.operations, newer) && DistinctOperations(newer)
      && forall i | 0 <= i < |newer| :: newer[i].project in w.store.editable
  }

  lemma NewerAreUndone(w: World, edited: map<nat, nat>, original: map<nat, Operation>, m: nat)
    requires EditedBefore(w, edited, original, m)
    ensures var (mid, n) := UndoChain(w.store, StandingItems(w.row)[..m]); n == m && mid.projects == edited
  {
    var newer := StandingItems(w.row)[..m];
    UndoReturnsToTheStart(w.store, edited, Reverse(newer), original);
    ReverseTwice(newer);
    ReverseLength(newer);
  }

  /** All of them took the projects from `start` to where they are now: nobody has edited them since. */
  ghost predicate LeftBy(w: World, start: map<nat, nat>, original: map<nat, Operation>) {
    EditedBefore(w, start, original, |StandingItems(w.row)|)
  }

  /** «Undo all» on a job nobody edited after gives every project back its value from before the job, counts each
      standing operation as undone and keeps none of them. */
  lemma TheCallReturnsToTheStart(w: World, start: map<nat, nat>, original: map<nat, Operation>)
    requires LeftBy(w, start, original)
    ensures var (v, answer) := UndoEverything(w);
      && v.store.projects == start
      && answer.kept == RestoreAll(w.preferences, StandingPreferences(w.row)).2
      && answer.undone == |StandingItems(w.row)| + |RestoreAll(w.preferences, StandingPreferences(w.row)).1|
  {
    var items := StandingItems(w.row);
    NewerAreUndone(w, start, original, |items|);
    assert items[..|items|] == items;
  }

  /** ... and with the preferences as the job left them, nothing at all is kept: a second call finds nothing. */
  lemma TheCallUndoesEverything(w: World, start: map<nat, nat>, original: map<nat, Operation>)
    requires LeftBy(w, start, original)
    requires var prefs := StandingPreferences(w.row);
      && (prefs != [] ==> w.preferences == prefs[0].saved)
      && (forall i | 0 < i < |prefs| :: prefs[i - 1].previous == prefs[i].saved)
    ensures var (v, answer) := UndoEverything(w);
      && v.store.projects == start && answer.kept == 0
      && v.preferences == (var prefs := StandingPreferences(w.row);
                           if prefs == [] then w.preferences else prefs[|prefs| - 1].previous)
      && StandingItems(v.row) == [] && StandingPreferences(v.row) == []
  {
    TheCallReturnsToTheStart(w, start, original);
    if StandingPreferences(w.row) != [] {
      PreferencesReturnToTheStart(w.preferences, StandingPreferences(w.row));
    }
    ASecondCallUndoesNothing(w);
  }

  /** A chain that undoes all of its first part goes on with the rest. */
  lemma {:induction false} ChainGoesOn(s: Store, a: seq<Item>, b: seq<Item>)
    requires UndoChain(s, a).1 == |a|
    ensures UndoChain(s, a + b) == (UndoChain(UndoChain(s, a).0, b).0, |a| + UndoChain(UndoChain(s, a).0, b).1)
    decreases |a|
  {
    if a == [] {
      assert a + b == b;
    } else {
      assert (a + b)[1..] == a[1..] + b;
      ChainGoesOn(UndoOperation(s, a[0].project, a[0].operation).value, a[1..], b);
    }
  }

  /** Who may edit stays, and so does the record of every operation the chain does not name. */
  lemma {:induction false} ChainKeepsOthers(s: Store, items: seq<Item>, operation: nat)
    requires forall i | 0 <= i < |items| :: items[i].operation != operation
    ensures var after := UndoChain(s, items).0;
      && after.editable == s.editable
      && (operation in after.operations <==> operation in s.operations)
      && (operation in s.operations ==> after.operations[operation] == s.operations[operation])
    decreases |items|
  {
    if items != [] {
      match UndoOperation(s, items[0].project, items[0].operation) {
        case None =>
        case Some(next) =>
          ChainKeepsOthers(next, items[1..], operation);
      }
    }
  }

  /** An operation once undone stays so. */
  lemma {:induction false} UndoneStays(s: Store, items: seq<Item>, operation: nat)
    requires operation in s.operations && s.operations[operation].undone
    ensures var after := UndoChain(s, items).0; operation in after.operations && after.operations[operation].undone
    decreases |items|
  {
    if items != [] {
      match UndoOperation(s, items[0].project, items[0].operation) {
        case None =>
        case Some(next) =>
          UndoneStays(next, items[1..], operation);
      }
    }
  }

  /** Every operation the chain counts is undone. */
  lemma {:induction false} CountedAreUndone(s: Store, items: seq<Item>, i: nat)
    requires i < UndoChain(s, items).1
    ensures var after := UndoChain(s, items).0;
      items[i].operation in after.operations && after.operations[items[i].operation].undone
    decreases |items|
  {
    var next := UndoOperation(s, items[0].project, items[0].operation).value;
    if i == 0 {
      UndoneStays(next, items[1..], items[0].operation);
    } else {
      CountedAreUndone(next, items[1..], i - 1);
    }
  }

  /** The k-th newest operation is one the project service refuses while the projects are as `edited`, and the newest
      of its project that is older than the m newest ones. */
  ghost predicate RefusedThen(w: World, edited: map<nat, nat>, m: nat, k: nat) {
    var items := StandingItems(w.row);
    && m <= k < |items|
    && UndoOperation(w.store.(projects := edited), items[k].project, items[k].operation).None?
    && (forall i | m <= i < k :: items[i].project != items[k].project)
    && (forall i | 0 <= i < m :: items[i].operation != items[k].operation)
  }

  lemma ChainLeavesEdits(w: World, edited: map<nat, nat>, original: map<nat, Operation>, m: nat, k: nat)
    requires EditedBefore(w, edited, original, m) && RefusedThen(w, edited, m, k)
    ensures var items, (after, n) := StandingItems(w.row), UndoChain(w.store, StandingItems(w.row));
      && m <= n <= k
      && (items[k].project in edited ==>
            items[k].project in after.projects && after.projects[items[k].project] == edited[items[k].project])
  {
    var items := StandingItems(w.row);
    NewerAreUndone(w, edited, original, m);
    ChainGoesOn(w.store, items[..m], items[m..]);
    assert items[..m] + items[m..] == items;
    ChainKeepsOthers(w.store, items[..m], items[k].operation);
    LaterEditsAreNeverUndonePast(UndoChain(w.store, items[..m]).0, items[m..], k - m);
  }

  /** Someone edited a project before the job's m newest operations, zero of them or more: the call undoes those, goes
      no further than the older operation the edit put out of date, and the project keeps exactly the value the edit
      left. The answer counts something kept, and the draft the job created is left alone. */
  lemma TheCallLeavesEdits(w: World, edited: map<nat, nat>, original: map<nat, Operation>, m: nat, k: nat)
    requires EditedBefore(w, edited, original, m) && RefusedThen(w, edited, m, k)
    ensures var items, v, answer := StandingItems(w.row), UndoEverything(w).0, UndoEverything(w).1;
      && m <= UndoChain(w.store, items).1 <= k && answer.kept > 0
      && (forall i | 0 <= i < m :: items[i].operation in v.store.operations
                                   && v.store.operations[items[i].operation].undone)
      && (items[k].project in edited ==>
            items[k].project in v.store.projects && v.store.projects[items[k].project] == edited[items[k].project])
      && (w.created.Some? ==> v.created == w.created)
  {
    var items := StandingItems(w.row);
    ChainLeavesEdits(w, edited, original, m, k);
    forall i | 0 <= i < m
      ensures items[i].operation in UndoChain(w.store, items).0.operations
      ensures UndoChain(w.store, items).0.operations[items[i].operation].undone
    {
      CountedAreUndone(w.store, items, i);
    }
  }

  // ---------------------------------------------------------------- recording

  /** An entry that undoes a step recorded as applied and not undone. */
  ghost predicate Undoes(row: Row, entry: Outcome) {
    && entry.action == Undone
    && Has(row.outcomes, entry.turn, entry.step, Applied) && !Has(row.outcomes, entry.turn, entry.step, Undone)
  }

  lemma ItemEntriesUndo(row: Row, items: seq<Item>)
    requires forall k | 0 <= k < |items| ::
      Has(row.outcomes, items[k].turn, items[k].step, Applied) && !Has(row.outcomes, items[k].turn, items[k].step, Undone)
    ensures forall i | 0 <= i < |ItemEntries(items)| :: Undoes(row, ItemEntries(items)[i])
  {
  }

  lemma PreferenceEntriesUndo(row: Row, prefs: seq<Preference>)
    requires forall p | p in prefs ::
      Has(row.outcomes, p.turn, p.step, Applied) && !Has(row.outcomes, p.turn, p.step, Undone)
    ensures forall i | 0 <= i < |PreferenceEntries(prefs)| :: Undoes(row, PreferenceEntries(prefs)[i])
  {
    forall i | 0 <= i < |prefs| ensures Undoes(row, PreferenceEntries(prefs)[i]) {
      assert prefs[i] in prefs;
    }
  }

  /** Every entry undoes a step this job recorded as applied and not undone: what the job's own protocol asks of it. */
  lemma EntriesUndoWhatWasApplied(w: World)
    ensures var (v, answer) := UndoEverything(w);
      exists entries: seq<Outcome> ::
        && v.row == RecordAssistantOutcomes(w.row, entries) && answer.undone == |entries|
        && forall i | 0 <= i < |entries| ::
             Undoes(w.row, entries[i])
  {
    var items, prefs := StandingItems(w.row), StandingPreferences(w.row);
    var n := UndoChain(w.store, items).1;
    var restored := RestoreAll(w.preferences, prefs).1;
    var entries := ItemEntries(items[..n]) + PreferenceEntries(restored);
    ItemsStand(w.row, |w.row.outcomes|);
    PreferencesStand(w.row, |w.row.outcomes|);
    RestoredAreListed(w.preferences, prefs);
    ItemEntriesUndo(w.row, items[..n]);
    PreferenceEntriesUndo(w.row, restored);
    assert forall i | 0 <= i < |entries| :: Undoes(w.row, entries[i]);
    assert w.row == RecordAssistantOutcomes(w.row, []) by {
      assert w.row.outcomes + [] == w.row.outcomes;
    }
    assert UndoEverything(w).0.row == RecordAssistantOutcomes(w.row, entries);
  }

  lemma {:induction false} ItemsStand(row: Row, n: nat)
    requires n <= |row.outcomes|
    ensures forall k | 0 <= k < |Items(row, n)| ::
      && Has(row.outcomes, Items(row, n)[k].turn, Items(row, n)[k].step, Applied)
      && !Has(row.outcomes, Items(row, n)[k].turn, Items(row, n)[k].step, Undone)
  {
    if n > 0 {
      ItemsStand(row, n - 1);
    }
  }

  lemma {:induction false} PreferencesStand(row: Row, n: nat)
    requires n <= |row.outcomes|
    ensures forall p | p in Preferences(row, n) ::
      Has(row.outcomes, p.turn, p.step, Applied) && !Has(row.outcomes, p.turn, p.step, Undone)
  {
    if n > 0 {
      PreferencesStand(row, n - 1);
    }
  }

  lemma {:induction false} RestoredAreListed(current: nat, prefs: seq<Preference>)
    ensures forall p | p in RestoreAll(current, prefs).1 :: p in prefs
    ensures RestoreAll(current, prefs).2 == 0 ==> RestoreAll(current, prefs).1 == prefs
    decreases |prefs|
  {
    if prefs != [] {
      if current != prefs[0].saved {
        RestoredAreListed(current, prefs[1..]);
      } else {
        RestoredAreListed(prefs[0].previous, prefs[1..]);
        assert prefs == [prefs[0]] + prefs[1..];
      }
    }
  }

  // ---------------------------------------------------------------- a second call

  /** An item undone by the recorded entries no longer stands; any other one still does. */
  lemma StandingAfter(row: Row, entries: seq<Outcome>, o: Outcome)
    requires forall k | 0 <= k < |entries| :: entries[k].action == Undone
    ensures Standing(RecordAssistantOutcomes(row, entries), o)
      <==> Standing(row, o) && !Has(entries, o.turn, o.step, Undone)
  {
    var all := row.outcomes + entries;
    assert forall i | 0 <= i < |row.outcomes| :: all[i] == row.outcomes[i];
    assert forall k | 0 <= k < |entries| :: all[|row.outcomes| + k] == entries[k];
  }

  /** Nothing recorded as undone stands: then no item is left. */
  lemma {:induction false} NothingStands(row: Row, entries: seq<Outcome>, n: nat)
    requires n <= |row.outcomes| && forall k | 0 <= k < |entries| :: entries[k].action == Undone
    requires forall i | i in Items(row, n) :: Has(entries, i.turn, i.step, Undone)
    requires forall p | p in Preferences(row, n) :: Has(entries, p.turn, p.step, Undone)
    ensures var after := RecordAssistantOutcomes(row, entries);
      Items(after, n) == [] && Preferences(after, n) == []
  {
    if n > 0 {
      var o, after := row.outcomes[n - 1], RecordAssistantOutcomes(row, entries);
      assert after.outcomes[n - 1] == o;
      StandingAfter(row, entries, o);
      var item, p := ItemOf(row, o), PreferenceOf(row, o);
      assert item.Some? ==> Items(row, n)[0] == item.value;
      assert p.Some? ==> Preferences(row, n)[0] == p.value;
      forall i | i in Items(row, n - 1) ensures Has(entries, i.turn, i.step, Undone) {
        assert i in Items(row, n);
      }
      forall q | q in Preferences(row, n - 1) ensures Has(entries, q.turn, q.step, Undone) {
        assert q in Preferences(row, n);
      }
      NothingStands(row, entries, n - 1);
    }
  }

  /** Undone outcomes added at the end are no items. */
  lemma {:induction false} UndoneAreNoItems(row: Row, m: nat, n: nat)
    requires m <= n <= |row.outcomes| && forall k | m <= k < n :: row.outcomes[k].action == Undone
    ensures Items(row, n) == Items(row, m) && Preferences(row, n) == Preferences(row, m)
    decreases n
  {
    if m < n {
      UndoneAreNoItems(row, m, n - 1);
    }
  }

  lemma EntriesName(items: seq<Item>, prefs: seq<Preference>)
    ensures var entries := ItemEntries(items) + PreferenceEntries(prefs);
      && (forall k | 0 <= k < |entries| :: entries[k].action == Undone)
      && (forall i | i in items :: Has(entries, i.turn, i.step, Undone))
      && (forall p | p in prefs :: Has(entries, p.turn, p.step, Undone))
  {
    var entries := ItemEntries(items) + PreferenceEntries(prefs);
    forall item | item in items ensures Has(entries, item.turn, item.step, Undone) {
      var k :| 0 <= k < |items| && items[k] == item;
      assert entries[k] == ItemEntries(items)[k];
    }
    forall p | p in prefs ensures Has(entries, p.turn, p.step, Undone) {
      var i :| 0 <= i < |prefs| && prefs[i] == p;
      assert entries[|items| + i] == PreferenceEntries(prefs)[i];
    }
  }

  /** After an answer that kept nothing, a second «undo all» finds nothing to undo and changes neither the projects
      nor the preferences nor the record. */
  lemma ASecondCallUndoesNothing(w: World)
    requires UndoEverything(w).1.kept == 0
    ensures var v := UndoEverything(w).0;
      && StandingItems(v.row) == [] && StandingPreferences(v.row) == []
      && UndoEverything(v).1.undone == 0
      && UndoEverything(v).0.store == v.store && UndoEverything(v).0.preferences == v.preferences
      && UndoEverything(v).0.row == v.row
  {
    var items, prefs := StandingItems(w.row), StandingPreferences(w.row);
    var n := UndoChain(w.store, items).1;
    RestoredAreListed(w.preferences, prefs);
    assert n == |items| && items[..n] == items && RestoreAll(w.preferences, prefs).1 == prefs;
    var entries := ItemEntries(items) + PreferenceEntries(prefs);
    EntriesName(items, prefs);
    var m := |w.row.outcomes|;
    NothingStands(w.row, entries, m);
    var after := RecordAssistantOutcomes(w.row, entries);
    UndoneAreNoItems(after, m, |after.outcomes|);
    assert entries == [] ==> after.outcomes == w.row.outcomes;
    var v := UndoEverything(w).0;
    assert v.row == after;
    NothingToUndo(v);
  }

  lemma NothingToUndo(v: World)
    requires StandingItems(v.row) == [] && StandingPreferences(v.row) == []
    ensures var (u, answer) := UndoEverything(v);
      answer.undone == 0 && u.store == v.store && u.preferences == v.preferences && u.row == v.row
  {
  }

  /** The draft the job created goes only when nothing was kept, and only empty and unreferenced. */
  lemma DraftGoesOnlyEmpty(w: World)
    requires w.created.Some? && w.created.value.present
    ensures var (v, answer) := UndoEverything(w);
      && v.created.Some?
      && (!v.created.value.present <==>
            answer.kept == 0 && w.created.value.isDraft && w.created.value.windows == 0 && w.created.value.free)
      && (answer.draft == Removed <==> !v.created.value.present)
  {
  }
}
