/** Refcounted keyed locks whose map entries are deleted and recreated, used per
    account and per upstream key. Every channel operation and every critical
    section is a separate step of some process. */
module KeyedLocks {
  import opened Options
  import Text

  /** Accounts lock by number, group keys by their resource text. */
  datatype Key = AccountKey(id: int) | GroupKey(text: string)

  /** groupResourceKey. */
  function GroupResourceKey(source: int, key: string): string
  {
    Text.FormatInt(source) + ([':'] + Text.Trim(key))
  }

  /** Two upstream keys share a lock exactly when they are the same key of the
      same source up to surrounding space. */
  lemma GroupResourceKeyInjective(s: int, k: string, t: int, l: string)
    ensures GroupResourceKey(s, k) == GroupResourceKey(t, l) <==> s == t && Text.Trim(k) == Text.Trim(l)
  {
    hide Text.Trim;
    if GroupResourceKey(s, k) == GroupResourceKey(t, l) {
      Text.FirstMark(':', Text.FormatInt(s), Text.FormatInt(t), Text.Trim(k), Text.Trim(l));
      Text.FormatIntInjective(s, t);
    }
  }

  // ---------------------------------------------------- the shared table

  /** A lock entry: whether its channel holds the token, and its references. */
  datatype Cell = Cell(token: bool, refs: int)

  /** The map points into the cells ever allocated; cells outlive their map entry. */
  datatype Table = Table(entries: map<Key, nat>, cells: seq<Cell>)

  /** The critical section that opens acquire. */
  function Registered(t: Table, key: Key): (r: (Table, nat))
  {
    if key in t.entries && t.entries[key] < |t.cells| then
      var id := t.entries[key];
      (t.(cells := t.cells[id := t.cells[id].(refs := t.cells[id].refs + 1)]), id)
    else
      (Table(t.entries[key := |t.cells|], t.cells + [Cell(true, 1)]), |t.cells|)
  }

  /** releaseRef. */
  function Released(t: Table, key: Key, id: nat): Table
    requires id < |t.cells|
  {
    var c := t.cells[id].(refs := t.cells[id].refs - 1);
    Table(if c.refs == 0 && c.token && key in t.entries && t.entries[key] == id then t.entries - {key} else t.entries,
          t.cells[id := c])
  }

  function SetToken(t: Table, id: nat, token: bool): Table
    requires id < |t.cells|
  {
    t.(cells := t.cells[id := t.cells[id].(token := token)])
  }

  class LockTable {
    var entries: map<Key, nat>
    var cells: seq<Cell>

    ghost function View(): Table
      reads this
    {
      Table(entries, cells)
    }

    ghost predicate Bounded()
      reads this
    {
      forall key | key in entries :: entries[key] < |cells|
    }

    constructor ()
      ensures View() == Table(map[], []) && Bounded()
    {
      entries, cells := map[], [];
    }

    method Register(key: Key) returns (id: nat)
      requires Bounded()
      modifies this
      ensures (View(), id) == Registered(old(View()), key) && Bounded()
    {
      if key !in entries {
        id := |cells|;
        cells := cells + [Cell(true, 0)];
        entries := entries[key := id];
      } else {
        id := entries[key];
      }
      cells := cells[id := cells[id].(refs := cells[id].refs + 1)];
      assert key !in old(entries) ==> cells == old(cells) + [Cell(true, 1)];
    }

    method ReleaseRef(key: Key, id: nat)
      requires Bounded() && id < |cells|
      modifies this
      ensures View() == Released(old(View()), key, id) && Bounded()
    {
      cells := cells[id := cells[id].(refs := cells[id].refs - 1)];
      if cells[id].refs == 0 && cells[id].token && key in entries && entries[key] == id {
        entries := entries - {key};
      }
    }
  }

  // ------------------------------------------------------------ schedules

  /** A process from its registration until its reference is dropped. */
  datatype Stage = Waiting | Holding | Returned | Cancelled
  datatype Proc = Proc(key: Key, cell: nat, stage: Stage)

  datatype State = State(table: Table, procs: map<nat, Proc>)

  const START := State(Table(map[], []), map[])

  datatype Action =
    | Register(p: nat, key: Key)
    | Take(p: nat)
    | Cancel(p: nat)
    | PutBack(p: nat)
    | Drop(p: nat)

  /** A receive waits for the token and a send for an empty channel; a step that
      cannot happen changes nothing. */
  function Step(s: State, a: Action): State
  {
    if a.Register? then
      if a.p in s.procs then s
      else
        var (table, id) := Registered(s.table, a.key);
        State(table, s.procs[a.p := Proc(a.key, id, Waiting)])
    else if a.p !in s.procs || s.procs[a.p].cell >= |s.table.cells| then s
    else
      var proc := s.procs[a.p];
      match a
      case Take(p) =>
        if !proc.stage.Waiting? || !s.table.cells[proc.cell].token then s
        else State(SetToken(s.table, proc.cell, false), s.procs[p := proc.(stage := Holding)])
      case Cancel(p) =>
        if proc.stage.Waiting? then s.(procs := s.procs[p := proc.(stage := Cancelled)]) else s
      case PutBack(p) =>
        if !proc.stage.Holding? || s.table.cells[proc.cell].token then s
        else State(SetToken(s.table, proc.cell, true), s.procs[p := proc.(stage := Returned)])
      case Drop(p) =>
        if !proc.stage.Returned? && !proc.stage.Cancelled? then s
        else State(Released(s.table, proc.key, proc.cell), s.procs - {p})
  }

  function Run(s: State, actions: seq<Action>): State
    decreases |actions|
  {
    if actions == [] then s else Run(Step(s, actions[0]), actions[1..])
  }

  // ------------------------------------------------------------ invariant

  /** The processes that hold a reference to a cell. */
  function Referrers(s: State, id: nat): set<nat>
  {
    set p | p in s.procs && s.procs[p].cell == id
  }

  predicate Holds(s: State, p: nat, id: nat)
  {
    p in s.procs && s.procs[p].cell == id && s.procs[p].stage.Holding?
  }

  ghost predicate Free(s: State, id: nat)
  {
    forall p :: !Holds(s, p, id)
  }

  ghost predicate CellOk(s: State, id: nat)
    requires id < |s.table.cells|
  {
    && s.table.cells[id].refs == |Referrers(s, id)|
    && (s.table.cells[id].token <==> Free(s, id))
  }

  /** A process finds its cell through the map for as long as it refers to it. */
  ghost predicate ProcOk(s: State, p: nat)
    requires p in s.procs
  {
    var proc := s.procs[p];
    && proc.cell < |s.table.cells|
    && proc.key in s.table.entries && s.table.entries[proc.key] == proc.cell
  }

  ghost predicate Used(s: State, key: Key)
  {
    exists p | p in s.procs :: s.procs[p].key == key
  }

  ghost predicate OneHolder(s: State)
  {
    forall p, q, id | Holds(s, p, id) && Holds(s, q, id) :: p == q
  }

  ghost predicate MapOk(s: State)
  {
    && (forall key | key in s.table.entries :: s.table.entries[key] < |s.table.cells| && Used(s, key))
    && (forall k, l | k in s.table.entries && l in s.table.entries :: s.table.entries[k] == s.table.entries[l] ==> k == l)
  }

  ghost predicate Inv(s: State)
  {
    && (forall id | 0 <= id < |s.table.cells| :: CellOk(s, id))
    && (forall p | p in s.procs :: ProcOk(s, p))
    && OneHolder(s) && MapOk(s)
  }

  lemma SameHolders(s: State, t: State, id: nat)
    requires forall p :: Holds(t, p, id) <==> Holds(s, p, id)
    ensures Free(t, id) <==> Free(s, id)
  {
    if Free(s, id) { forall p ensures !Holds(t, p, id) { assert !Holds(s, p, id); } }
    if Free(t, id) { forall p ensures !Holds(s, p, id) { assert !Holds(t, p, id); } }
  }

  lemma UsedStays(s: State, t: State, key: Key)
    requires Used(s, key) && forall p | p in s.procs :: p in t.procs && t.procs[p].key == s.procs[p].key
    ensures Used(t, key)
  {
    var p :| p in s.procs && s.procs[p].key == key;
    assert p in t.procs && t.procs[p].key == key;
  }

  lemma NobodyBeyond(s: State, id: nat)
    requires Inv(s) && id >= |s.table.cells|
    ensures Referrers(s, id) == {} && Free(s, id)
  {
    forall p | p in s.procs ensures s.procs[p].cell != id { assert ProcOk(s, p); }
  }

  lemma ReferrersMember(s: State, id: nat, p: nat)
    ensures p in Referrers(s, id) <==> p in s.procs && s.procs[p].cell == id
  {
  }

  /** The referrers after a process came, left or moved on without changing its cell. */
  lemma ReferrersChange(s: State, t: State, p: nat, id: nat)
    requires forall q | q != p :: (q in t.procs <==> q in s.procs) && (q in s.procs ==> t.procs[q].cell == s.procs[q].cell)
    ensures |Referrers(t, id)| == |Referrers(s, id)| - (if p in Referrers(s, id) then 1 else 0) + (if p in Referrers(t, id) then 1 else 0)
  {
    hide Referrers;
    forall q | q != p ensures q in Referrers(t, id) <==> q in Referrers(s, id) {
      ReferrersMember(s, id, q);
      ReferrersMember(t, id, q);
    }
    assert Referrers(t, id) - {p} == Referrers(s, id) - {p};
    Without(Referrers(t, id), p);
    Without(Referrers(s, id), p);
  }

  lemma Without(a: set<nat>, p: nat)
    ensures |a - {p}| == |a| - if p in a then 1 else 0
  {
    if p !in a { assert a - {p} == a; }
  }

  lemma RegisterKeepsCells(s: State, p: nat, key: Key, n: nat)
    requires Inv(s) && p !in s.procs && n < |Step(s, Register(p, key)).table.cells|
    ensures CellOk(Step(s, Register(p, key)), n)
  {
    var t := Step(s, Register(p, key));
    SameHolders(s, t, n);
    if n < |s.table.cells| { assert CellOk(s, n); } else { NobodyBeyond(s, n); }
    ReferrersChange(s, t, p, n);
    ReferrersMember(s, n, p);
    ReferrersMember(t, n, p);
    hide OneHolder, MapOk, Free, Referrers;
  }

  lemma RegisterKeeps(s: State, p: nat, key: Key)
    requires Inv(s) && p !in s.procs
    ensures Inv(Step(s, Register(p, key)))
  {
    hide CellOk;
    var t := Step(s, Register(p, key));
    forall n | 0 <= n < |t.table.cells| ensures CellOk(t, n) { RegisterKeepsCells(s, p, key, n); }
    forall q | q in t.procs ensures ProcOk(t, q) { if q != p { assert ProcOk(s, q); } }
    forall q, id | Holds(t, q, id) ensures Holds(s, q, id) {}
    forall k | k in t.table.entries ensures Used(t, k) {
      if k != key { UsedStays(s, t, k); } else { assert p in t.procs && t.procs[p].key == k; }
    }
  }

  /** Steps that only move one process on, perhaps flipping its cell's token. */
  lemma MoveKeeps(s: State, p: nat, stage: Stage, table: Table)
    requires Inv(s) && p in s.procs && s.procs[p].cell < |s.table.cells|
    requires var proc := s.procs[p];
             table == SetToken(s.table, proc.cell, if proc.stage.Holding? then true else if stage.Holding? then false else s.table.cells[proc.cell].token)
    requires s.procs[p].stage.Holding? ==> !stage.Holding?
    requires stage.Holding? ==> s.table.cells[s.procs[p].cell].token
    ensures Inv(State(table, s.procs[p := s.procs[p].(stage := stage)]))
  {
    var t := State(table, s.procs[p := s.procs[p].(stage := stage)]);
    var cell := s.procs[p].cell;
    assert CellOk(s, cell);
    forall q, id ensures Holds(t, q, id) <==> if q == p then id == cell && stage.Holding? else Holds(s, q, id) {}
    forall n | 0 <= n < |t.table.cells| ensures CellOk(t, n) {
      assert CellOk(s, n);
      assert Referrers(t, n) == Referrers(s, n);
      if n != cell || s.procs[p].stage.Holding? == stage.Holding? {
        SameHolders(s, t, n);
      } else if stage.Holding? {
        assert Holds(t, p, cell);
      } else {
        assert Holds(s, p, cell);
      }
    }
    forall q | q in t.procs ensures ProcOk(t, q) { assert ProcOk(s, q); }
    forall k | k in t.table.entries ensures Used(t, k) { UsedStays(s, t, k); }
  }

  lemma DropKeepsCells(s: State, p: nat, n: nat)
    requires Inv(s) && p in s.procs && s.procs[p].cell < |s.table.cells| && !s.procs[p].stage.Holding?
    requires n < |s.table.cells|
    ensures CellOk(State(Released(s.table, s.procs[p].key, s.procs[p].cell), s.procs - {p}), n)
  {
    var t := State(Released(s.table, s.procs[p].key, s.procs[p].cell), s.procs - {p});
    assert CellOk(s, n);
    forall q ensures Holds(t, q, n) <==> Holds(s, q, n) {}
    SameHolders(s, t, n);
    ReferrersChange(s, t, p, n);
    ReferrersMember(s, n, p);
    ReferrersMember(t, n, p);
  }

  /** A map entry is deleted with its last reference, and not before. */
  lemma DropKeepsEntry(s: State, p: nat, q: nat)
    requires Inv(s) && p in s.procs && q in s.procs && q != p && s.procs[p].cell < |s.table.cells|
    requires s.procs[q].cell == s.procs[p].cell
    ensures Released(s.table, s.procs[p].key, s.procs[p].cell).entries == s.table.entries
  {
    var id := s.procs[p].cell;
    assert CellOk(s, id);
    ReferrersMember(s, id, p);
    ReferrersMember(s, id, q);
    assert {p, q} <= Referrers(s, id);
    assert |Referrers(s, id) - {p, q}| == |Referrers(s, id)| - 2;
  }

  lemma DropKeeps(s: State, p: nat)
    requires Inv(s) && p in s.procs && (s.procs[p].stage.Returned? || s.procs[p].stage.Cancelled?)
    ensures Inv(Step(s, Drop(p)))
  {
    hide CellOk;
    var t := Step(s, Drop(p));
    var proc := s.procs[p];
    assert ProcOk(s, p);
    forall q, id ensures Holds(t, q, id) ==> Holds(s, q, id) {}
    forall n | 0 <= n < |t.table.cells| ensures CellOk(t, n) { DropKeepsCells(s, p, n); }
    forall q | q in t.procs ensures ProcOk(t, q) {
      assert ProcOk(s, q);
      if s.procs[q].cell == proc.cell { DropKeepsEntry(s, p, q); }
    }
    forall k | k in t.table.entries ensures Used(t, k) { DropKeepsUsed(s, p, k); }
  }

  lemma DropKeepsUsed(s: State, p: nat, k: Key)
    requires Inv(s) && p in s.procs && s.procs[p].cell < |s.table.cells| && !s.procs[p].stage.Holding?
    requires k in Released(s.table, s.procs[p].key, s.procs[p].cell).entries
    ensures Used(State(Released(s.table, s.procs[p].key, s.procs[p].cell), s.procs - {p}), k)
  {
    var t := State(Released(s.table, s.procs[p].key, s.procs[p].cell), s.procs - {p});
    var id := s.procs[p].cell;
    assert Used(s, k) && ProcOk(s, p) && CellOk(s, id);
    var q :| q in s.procs && s.procs[q].key == k;
    if q == p {
      DropKeepsCells(s, p, id);
      LastDropDeletes(s, p);
      assert Referrers(t, id) != {};
      var r :| r in Referrers(t, id);
      assert ProcOk(s, r);
      assert r in t.procs && t.procs[r].key == k;
    } else {
      assert q in t.procs && t.procs[q].key == k;
    }
  }

  lemma LastDropDeletes(s: State, p: nat)
    requires Inv(s) && p in s.procs && s.procs[p].cell < |s.table.cells| && !s.procs[p].stage.Holding?
    ensures var t := State(Released(s.table, s.procs[p].key, s.procs[p].cell), s.procs - {p});
            Referrers(t, s.procs[p].cell) == {} ==> s.procs[p].key !in t.table.entries
  {
    var id := s.procs[p].cell;
    var t := State(Released(s.table, s.procs[p].key, id), s.procs - {p});
    DropKeepsCells(s, p, id);
    assert ProcOk(s, p);
    if Referrers(t, id) == {} {
      forall q ensures !Holds(t, q, id) { ReferrersMember(t, id, q); }
    }
  }

  lemma StepKeeps(s: State, a: Action)
    requires Inv(s)
    ensures Inv(Step(s, a))
  {
    hide Inv;
    if a.Register? {
      if a.p !in s.procs { RegisterKeeps(s, a.p, a.key); }
    } else if a.p in s.procs {
      ProcInBounds(s, a.p);
      var proc := s.procs[a.p];
      var c := s.table.cells[proc.cell];
      match a
      case Take(p) =>
        if proc.stage.Waiting? && c.token { MoveKeeps(s, p, Holding, SetToken(s.table, proc.cell, false)); }
      case Cancel(p) =>
        if proc.stage.Waiting? {
          assert SetToken(s.table, proc.cell, c.token) == s.table;
          MoveKeeps(s, p, Cancelled, s.table);
        }
      case PutBack(p) =>
        if proc.stage.Holding? && !c.token { MoveKeeps(s, p, Returned, SetToken(s.table, proc.cell, true)); }
      case Drop(p) =>
        if proc.stage.Returned? || proc.stage.Cancelled? { DropKeeps(s, p); }
    }
  }

  lemma ProcInBounds(s: State, p: nat)
    requires Inv(s) && p in s.procs
    ensures s.procs[p].cell < |s.table.cells|
  {
    assert ProcOk(s, p);
  }

  lemma {:induction false} RunKeeps(s: State, actions: seq<Action>)
    requires Inv(s)
    ensures Inv(Run(s, actions))
    decreases |actions|
  {
    hide Inv, Step;
    if actions != [] {
      StepKeeps(s, actions[0]);
      RunKeeps(Step(s, actions[0]), actions[1..]);
    }
  }

  // ------------------------------------------------------------- theorems

  /** At most one holder per key over every schedule, although entries are
      deleted and recreated; and a holder's token is out, so returning it never blocks. */
  lemma MutualExclusion(actions: seq<Action>, p: nat, q: nat)
    requires var s := Run(START, actions);
             && p in s.procs && q in s.procs && s.procs[p].key == s.procs[q].key
             && s.procs[p].stage.Holding? && s.procs[q].stage.Holding?
    ensures p == q
    ensures var s := Run(START, actions);
            s.procs[p].cell < |s.table.cells| && !s.table.cells[s.procs[p].cell].token
  {
    RunKeeps(START, actions);
    var s := Run(START, actions);
    hide Run;
    assert ProcOk(s, p) && ProcOk(s, q) && CellOk(s, s.procs[p].cell);
    assert Holds(s, p, s.procs[p].cell) && Holds(s, q, s.procs[p].cell);
  }

  /** Reference counts are exact, and a cell without references has its token
      back and is no longer in the map. */
  lemma ReferencesAreExact(actions: seq<Action>, id: nat)
    requires id < |Run(START, actions).table.cells|
    ensures var s := Run(START, actions);
            && s.table.cells[id].refs == |Referrers(s, id)|
            && (s.table.cells[id].refs == 0 ==> s.table.cells[id].token && id !in s.table.entries.Values)
  {
    RunKeeps(START, actions);
    var s := Run(START, actions);
    hide Run;
    assert CellOk(s, id);
    if s.table.cells[id].refs == 0 {
      forall p ensures !Holds(s, p, id) { assert Holds(s, p, id) ==> p in Referrers(s, id); }
      forall p | p in s.procs ensures s.procs[p].cell != id { assert p in Referrers(s, s.procs[p].cell); }
      forall key | key in s.table.entries ensures s.table.entries[key] != id {
        var p :| p in s.procs && s.procs[p].key == key;
        assert ProcOk(s, p);
      }
    }
  }

  /** The map holds exactly the keys somebody waits for or holds: nothing leaks. */
  lemma NothingLeaks(actions: seq<Action>, key: Key)
    ensures var s := Run(START, actions);
            key in s.table.entries <==> Used(s, key)
    ensures var s := Run(START, actions);
            s.procs == map[] ==> s.table.entries == map[]
  {
    RunKeeps(START, actions);
    var s := Run(START, actions);
    hide Run;
    if Used(s, key) {
      var p :| p in s.procs && s.procs[p].key == key;
      assert ProcOk(s, p);
    }
    assert s.table.entries == map[] || exists k :: k in s.table.entries;
  }

  /** A free lock can be taken: with no holder for its key, a waiter's receive succeeds. */
  lemma FreeLockCanBeTaken(actions: seq<Action>, p: nat)
    requires var s := Run(START, actions);
             && p in s.procs && s.procs[p].stage.Waiting?
             && forall q | q in s.procs && s.procs[q].key == s.procs[p].key :: !s.procs[q].stage.Holding?
    ensures var s := Run(START, actions);
            var t := Step(s, Take(p));
            p in t.procs && t.procs[p] == s.procs[p].(stage := Holding)
  {
    RunKeeps(START, actions);
    var s := Run(START, actions);
    hide Run;
    assert ProcOk(s, p) && CellOk(s, s.procs[p].cell);
    forall q ensures !Holds(s, q, s.procs[p].cell) {
      if q in s.procs { assert ProcOk(s, q); }
    }
  }

  /** Nobody gets stuck: a waiter can give up and a holder can return its lock at
      any time, and either then drops its reference and is gone, leaving the
      others as they were; what the holder held is free for its waiters. */
  lemma EveryoneCanLeave(actions: seq<Action>, p: nat)
    requires var s := Run(START, actions);
             p in s.procs && (s.procs[p].stage.Waiting? || s.procs[p].stage.Holding?)
    ensures var s := Run(START, actions);
            var t := Step(Step(s, if s.procs[p].stage.Waiting? then Cancel(p) else PutBack(p)), Drop(p));
            && t.procs == s.procs - {p}
            && (s.procs[p].stage.Holding? ==> forall q | q in t.procs :: t.procs[q].key == s.procs[p].key ==> !t.procs[q].stage.Holding?)
  {
    RunKeeps(START, actions);
    var s := Run(START, actions);
    hide Run;
    assert ProcOk(s, p) && CellOk(s, s.procs[p].cell);
    if s.procs[p].stage.Holding? {
      assert Holds(s, p, s.procs[p].cell);
      forall q | q in s.procs && q != p && s.procs[q].key == s.procs[p].key ensures !s.procs[q].stage.Holding? {
        if s.procs[q].stage.Holding? { MutualExclusion(actions, p, q); }
      }
    }
    var t := Step(Step(s, if s.procs[p].stage.Waiting? then Cancel(p) else PutBack(p)), Drop(p));
    assert t.procs == s.procs - {p};
  }

  /** A lock is handed over: once its holder has returned it, a waiter takes it. */
  lemma LockIsHandedOver(actions: seq<Action>, p: nat, q: nat)
    requires var s := Run(START, actions);
             && p in s.procs && s.procs[p].stage.Holding? && q in s.procs && s.procs[q].stage.Waiting?
             && s.procs[p].key == s.procs[q].key
    ensures var s := Run(START, actions);
            var t := Run(s, [PutBack(p), Take(q)]);
            t.procs == s.procs[p := s.procs[p].(stage := Returned)][q := s.procs[q].(stage := Holding)]
  {
    RunKeeps(START, actions);
    var s := Run(START, actions);
    RunTwo(s, PutBack(p), Take(q));
    hide Run;
    assert ProcOk(s, p) && ProcOk(s, q) && CellOk(s, s.procs[p].cell);
    assert Holds(s, p, s.procs[p].cell);
  }

  lemma RunTwo(s: State, a: Action, b: Action)
    ensures Run(s, [a, b]) == Step(Step(s, a), b)
  {
    hide Step;
    assert [a, b][1..] == [b] && [b][1..] == [];
    assert Run(s, [a, b]) == Run(Step(s, a), [b]) == Run(Step(Step(s, a), b), []);
  }
}
