/**
 BackupMan, the registry of running backups, and the service calls that use it. A future stands for a
 backup running in another thread; it is a number here. Each registry call is one step.
 */
module Registry {
  import opened Text

  datatype Status = Unknown | InProgress | Success | Failed

  datatype Record = Record(future: Option<nat>, status: Status, isAsync: bool)

  type Records = map<string, Record>

  /** records is None while there is no instance; requested holds the futures whose cancel was called. */
  datatype State = Tracked(records: Option<Records>, requested: set<nat>)

  function RecordsOf(s: State): Records { if s.records.Some? then s.records.value else map[] }

  function FutureOf(s: State, name: string): Option<nat> {
    if name in RecordsOf(s) then RecordsOf(s)[name].future else None
  }

  function Futures(o: Option<nat>): set<nat> { if o.Some? then {o.value} else {} }

  /** __clean: cancel and forget. */
  function Cleaned(s: State, name: string): State {
    if s.records.None? || name !in s.records.value then s
    else Tracked(Some(s.records.value - {name}), s.requested + Futures(s.records.value[name].future))
  }

  function Registered(s: State, name: string, isAsync: bool, overwrite: bool): State {
    if name in RecordsOf(s) && !overwrite then s
    else
      var c := Cleaned(s, name);
      Tracked(Some(RecordsOf(c)[name := Record(None, Unknown, isAsync)]), c.requested)
  }

  function WithFuture(s: State, name: string, future: nat): State {
    Tracked(Some(RecordsOf(s)[name := Record(Some(future), Unknown, true)]), s.requested)
  }

  /** None: not registered, which raises. */
  function Updated(s: State, name: string, status: Status): Option<State> {
    if name !in RecordsOf(s) then None
    else
      var was := RecordsOf(s)[name];
      Some(Tracked(Some(RecordsOf(s)[name := Record(was.future, status, was.isAsync)]), s.requested))
  }

  ghost function AllFutures(records: Records): set<nat> {
    set name | name in records && records[name].future.Some? :: records[name].future.value
  }

  lemma NoFutures()
    ensures AllFutures(map[]) == {}
  {
  }

  lemma FuturesWithout(records: Records, name: string)
    requires name in records
    ensures AllFutures(records) == Futures(records[name].future) + AllFutures(records - {name})
  {
    forall f ensures f in AllFutures(records) <==> f in Futures(records[name].future) + AllFutures(records - {name}) {
      if n :| n in records && records[n].future == Some(f) {
        assert n == name || (n in records - {name} && (records - {name})[n] == records[n]);
      }
    }
  }

  class BackupMan {
    var records: Option<Records>
    var requested: set<nat>

    ghost function State(): State
      reads this
    {
      Tracked(records, requested)
    }

    constructor ()
      ensures State() == Tracked(None, {})
    {
      records, requested := None, {};
    }

    method Clean(name: string) returns (ok: bool)
      modifies this
      ensures ok == (name in RecordsOf(old(State())))
      ensures State() == Cleaned(old(State()), name)
      ensures records.Some? == old(records).Some?
    {
      if records.None? || name !in records.value { return false; }
      requested := requested + Futures(records.value[name].future);
      records := Some(records.value - {name});
      ok := true;
    }

    method RegisterBackup(name: string, isAsync: bool, overwrite: bool) returns (ok: bool)
      modifies this
      ensures ok == (name != "")
      ensures State() == if ok then Registered(old(State()), name, isAsync, overwrite) else old(State())
    {
      if name == "" { return false; }
      if records.None? { records := Some(map[]); }
      if name in records.value {
        if overwrite {
          var _ := Clean(name);
          records := Some(records.value[name := Record(None, Unknown, isAsync)]);
        } else {
          assert records.value[name := records.value[name]] == records.value;
        }
      } else {
        records := Some(records.value[name := Record(None, Unknown, isAsync)]);
      }
      ok := true;
    }

    method SetBackupFuture(name: string, future: Option<nat>) returns (ok: bool)
      modifies this
      ensures ok == (name != "" && future.Some?)
      ensures State() == if ok then WithFuture(old(State()), name, future.value) else old(State())
    {
      if name == "" || future.None? { return false; }
      if records.None? { records := Some(map[]); }
      records := Some(records.value[name := Record(future, Unknown, true)]);
      ok := true;
    }

    /** None stands for the exceptions. */
    method GetBackupFuture(name: string) returns (r: Option<Option<nat>>)
      ensures r == if name in RecordsOf(State()) then Some(FutureOf(State(), name)) else None
    {
      if records.None? || name !in records.value { return None; }
      r := Some(records.value[name].future);
    }

    method UpdateBackupStatus(name: string, status: Status) returns (ok: bool)
      modifies this
      ensures ok == (name != "" && Updated(old(State()), name, status).Some?)
      ensures State() == if ok then Updated(old(State()), name, status).value else old(State())
    {
      if name == "" || records.None? || name !in records.value { return false; }
      var was := records.value[name];
      records := Some(records.value[name := Record(was.future, status, was.isAsync)]);
      ok := true;
    }

    method RemoveBackup(name: string) returns (ok: bool)
      modifies this
      ensures ok
      ensures State() == Cleaned(old(State()), name)
    {
      if records.None? || name !in records.value { return true; }
      ok := Clean(name);
    }

    /** order: the keys of the dictionary, as list() gives them. */
    method RemoveAllBackups(order: seq<string>) returns (ok: bool)
      requires (forall i, j :: 0 <= i < j < |order| ==> order[i] != order[j])
      requires forall name :: name in order <==> name in RecordsOf(State())
      modifies this
      ensures ok
      ensures State() == Tracked(None, old(requested) + AllFutures(RecordsOf(old(State()))))
    {
      hide AllFutures, Futures;
      NoFutures();
      if records.None? { return true; }
      ok := true;
      for i := 0 to |order|
        invariant ok && records.Some?
        invariant forall name :: name in records.value <==> name in order[i..]
        invariant requested + AllFutures(records.value) == old(requested + AllFutures(RecordsOf(State())))
      {
        assert order[i] in order[i..] && order[i..] == [order[i]] + order[i + 1..];
        FuturesWithout(records.value, order[i]);
        var cleaned := Clean(order[i]);
        if !cleaned { ok := false; }
      }
      assert records.value == map[];
      records := None;
    }
  }

  // ---------------------------------------------------------------- the status of a backup

  /** What a future knows about the thread behind it. */
  datatype Progress = Running | Returned | Raised | Cancelled

  /** _determine_backup_status; None is the cancellation of a cancelled future, which is not an Exception and escapes. */
  function Determined(future: Option<Progress>, finished: bool): Option<Status> {
    if future.None? then Some(if finished then Success else Failed)
    else
      match future.value
      case Running => Some(InProgress)
      case Returned => Some(if finished then Success else Failed)
      case Raised => Some(Failed)
      case Cancelled => None
  }

  // ---------------------------------------------------------------- runs of the service

  /** How far the one AsyncBackup call under way has come. */
  datatype Call = NoCall | Announced(name: string) | Issued(name: string, future: nat)

  /**
   names: every future issued so far, with the name it was issued for. done: the futures whose thread came to
   an end before any cancel, and whether it returned (true) or raised.
   */
  datatype World = World(s: State, names: map<nat, string>, call: Call, done: map<nat, bool>)

  /**
   AsyncBackup registers, submits the work and stores its future, or fails to submit it; Backup registers;
   any thread reports a status or comes to its end; BackupStatus registers without overwriting; DeleteBackup
   removes; a shutdown removes everything.
   */
  datatype Action =
    | AsyncRegister(name: string)
    | AsyncSubmit(future: nat)
    | AsyncStore
    | AsyncAbandon
    | SyncRegister(name: string)
    | Report(name: string, status: Status)
    | Complete(future: nat, returned: bool)
    | StatusQuery(name: string)
    | Remove(name: string)
    | RemoveAll

  /** AsyncBackup calls do not overlap, a submitted future is a new one, and a cancelled one no longer completes. */
  predicate Enabled(w: World, a: Action) {
    match a
    case AsyncRegister(name) => w.call.NoCall? && name != ""
    case AsyncSubmit(f) => w.call.Announced? && f !in w.names
    case AsyncStore => w.call.Issued?
    case AsyncAbandon => w.call.Announced?
    case SyncRegister(name) => name != ""
    case Complete(f, _) => f in w.names && f !in w.done && f !in w.s.requested
    case StatusQuery(name) => name != ""
    case _ => true
  }

  function UpdatedOr(s: State, name: string, status: Status): State {
    if Updated(s, name, status).Some? then Updated(s, name, status).value else s
  }

  /** A step that is not enabled does not happen. */
  ghost function Apply(w: World, a: Action): World {
    if !Enabled(w, a) then w
    else
    match a
    case AsyncRegister(name) => w.(s := Registered(w.s, name, true, true), call := Announced(name))
    case AsyncSubmit(f) => w.(names := w.names[f := w.call.name], call := Issued(w.call.name, f))
    case AsyncStore => w.(s := WithFuture(w.s, w.call.name, w.call.future), call := NoCall)
    case AsyncAbandon => w.(s := UpdatedOr(w.s, w.call.name, Failed), call := NoCall)
    case SyncRegister(name) => w.(s := Registered(w.s, name, false, true))
    case Report(name, status) => w.(s := UpdatedOr(w.s, name, status))
    case Complete(f, returned) => w.(done := w.done[f := returned])
    case StatusQuery(name) => w.(s := Registered(w.s, name, false, false))
    case Remove(name) => w.(s := Cleaned(w.s, name))
    case RemoveAll => w.(s := Tracked(None, w.s.requested + AllFutures(RecordsOf(w.s))))
  }

  const Initial := World(Tracked(None, {}), map[], NoCall, map[])

  ghost function After(run: seq<Action>): World {
    if run == [] then Initial else Apply(After(run[..|run| - 1]), run[|run| - 1])
  }

  predicate Current(s: State, name: string, f: nat) { FutureOf(s, name) == Some(f) }

  /** The future is the registered one of its name. */
  predicate Held(w: World, f: nat) { f in w.names && Current(w.s, w.names[f], f) }

  predicate InHand(w: World, f: nat) { w.call.Issued? && w.call.future == f }

  /** Every issued future is in exactly one place; nothing else is held, and the name being filled holds none. */
  ghost predicate Inv(w: World) {
    && (forall f :: f in w.names ==> f in w.s.requested || Held(w, f) || InHand(w, f))
    && (forall f :: f in w.s.requested ==> f in w.names && !Held(w, f) && !InHand(w, f))
    && (forall n, f :: Current(w.s, n, f) ==> f in w.names && w.names[f] == n && !InHand(w, f))
    && (w.call.Announced? ==> FutureOf(w.s, w.call.name).None?)
    && (w.call.Issued? ==> w.call.future in w.names && w.names[w.call.future] == w.call.name && FutureOf(w.s, w.call.name).None?)
  }

  /** What a step does to the futures: those of some names are cancelled and dropped, the others stay. */
  ghost predicate Drops(s: State, t: State, n: string) {
    && t.requested == s.requested + Futures(FutureOf(s, n))
    && FutureOf(t, n).None?
    && forall m :: m != n ==> FutureOf(t, m) == FutureOf(s, m)
  }

  lemma CleanedDrops(s: State, n: string)
    ensures Drops(s, Cleaned(s, n), n)
  {
  }

  lemma OverwriteDrops(s: State, n: string, isAsync: bool)
    ensures Drops(s, Registered(s, n, isAsync, true), n)
  {
  }

  /** A status report or query touches no future. */
  ghost predicate SameFutures(s: State, t: State) {
    t.requested == s.requested && forall m :: FutureOf(t, m) == FutureOf(s, m)
  }

  lemma ReportKeeps(s: State, n: string, status: Status)
    ensures SameFutures(s, UpdatedOr(s, n, status))
  {
  }

  /** BackupStatus neither cancels nor replaces a future, and leaves every known record as it is. */
  lemma QueryKeeps(s: State, n: string, status: Status)
    ensures SameFutures(s, Registered(s, n, false, false))
    ensures SameFutures(s, UpdatedOr(Registered(s, n, false, false), n, status))
    ensures forall m :: m in RecordsOf(s) ==>
              m in RecordsOf(Registered(s, n, false, false)) && RecordsOf(Registered(s, n, false, false))[m] == RecordsOf(s)[m]
  {
    ReportKeeps(Registered(s, n, false, false), n, status);
  }

  lemma DropStep(w: World, t: State, n: string, call: Call)
    requires Inv(w) && Drops(w.s, t, n)
    requires call == w.call || (w.call.NoCall? && call == Announced(n))
    ensures Inv(w.(s := t, call := call))
  {
    var v := w.(s := t, call := call);
    forall f | f in v.names ensures f in v.s.requested || Held(v, f) || InHand(v, f) {
      if Held(w, f) && w.names[f] == n { assert f in Futures(FutureOf(w.s, n)); }
    }
    forall f | f in v.s.requested ensures f in v.names && !Held(v, f) && !InHand(v, f) {
      if f in w.s.requested {
        assert !Held(w, f);
      } else {
        assert Current(w.s, n, f);
      }
    }
    forall m, f | Current(v.s, m, f) ensures f in v.names && v.names[f] == m && !InHand(v, f) {
      assert Current(w.s, m, f);
    }
  }

  lemma SameStep(w: World, t: State, call: Call)
    requires Inv(w) && SameFutures(w.s, t)
    requires call == w.call || (w.call.Announced? && call == NoCall)
    ensures Inv(w.(s := t, call := call))
  {
    var v := w.(s := t, call := call);
    forall f ensures Held(v, f) <==> Held(w, f) {}
    forall m, f | Current(v.s, m, f) ensures f in v.names && v.names[f] == m && !InHand(v, f) {
      assert Current(w.s, m, f);
    }
  }

  lemma SubmitStep(w: World, f: nat)
    requires Inv(w) && w.call.Announced? && f !in w.names
    ensures Inv(w.(names := w.names[f := w.call.name], call := Issued(w.call.name, f)))
  {
    var v := w.(names := w.names[f := w.call.name], call := Issued(w.call.name, f));
    forall g | g in w.names ensures Held(v, g) <==> Held(w, g) {}
    forall m, g | Current(v.s, m, g) ensures g in v.names && v.names[g] == m && !InHand(v, g) {
      assert Current(w.s, m, g);
    }
  }

  lemma StoreStep(w: World)
    requires Inv(w) && w.call.Issued?
    ensures Inv(w.(s := WithFuture(w.s, w.call.name, w.call.future), call := NoCall))
  {
    var n := w.call.name;
    var v := w.(s := WithFuture(w.s, n, w.call.future), call := NoCall);
    forall m, g ensures Current(v.s, m, g) <==> (if m == n then g == w.call.future else Current(w.s, m, g)) {}
    forall g | g in w.names && g != w.call.future ensures Held(v, g) <==> Held(w, g) {
      assert !Current(w.s, n, g);
    }
  }

  lemma RemoveAllStep(w: World)
    requires Inv(w)
    ensures Inv(w.(s := Tracked(None, w.s.requested + AllFutures(RecordsOf(w.s)))))
  {
    var records := RecordsOf(w.s);
    var v := w.(s := Tracked(None, w.s.requested + AllFutures(records)));
    forall f | f in w.names && Held(w, f) ensures f in AllFutures(records) {
      assert w.names[f] in records;
    }
    forall f | f in AllFutures(records) ensures f in w.names && !InHand(w, f) {
      var n :| n in records && records[n].future == Some(f);
      assert Current(w.s, n, f);
    }
  }

  lemma CompleteStep(w: World, f: nat, returned: bool)
    requires Inv(w)
    ensures Inv(w.(done := w.done[f := returned]))
  {
    var v := w.(done := w.done[f := returned]);
    forall g ensures (Held(v, g) <==> Held(w, g)) && (InHand(v, g) <==> InHand(w, g)) {}
    forall m, g | Current(v.s, m, g) ensures g in v.names && v.names[g] == m && !InHand(v, g) {
      assert Current(w.s, m, g);
    }
  }

  lemma InvStep(w: World, a: Action)
    requires Inv(w)
    ensures Inv(Apply(w, a))
  {
    if !Enabled(w, a) { return; }
    hide Inv, Drops, SameFutures, Registered, Cleaned, UpdatedOr, WithFuture, AllFutures;
    match a
    case AsyncRegister(n) =>
      OverwriteDrops(w.s, n, true);
      DropStep(w, Registered(w.s, n, true, true), n, Announced(n));
    case AsyncSubmit(f) =>
      SubmitStep(w, f);
    case AsyncStore =>
      StoreStep(w);
    case AsyncAbandon =>
      ReportKeeps(w.s, w.call.name, Failed);
      SameStep(w, UpdatedOr(w.s, w.call.name, Failed), NoCall);
    case SyncRegister(n) =>
      OverwriteDrops(w.s, n, false);
      DropStep(w, Registered(w.s, n, false, true), n, w.call);
    case Report(n, status) =>
      ReportKeeps(w.s, n, status);
      SameStep(w, UpdatedOr(w.s, n, status), w.call);
    case Complete(f, returned) =>
      CompleteStep(w, f, returned);
    case StatusQuery(n) =>
      QueryKeeps(w.s, n, Unknown);
      SameStep(w, Registered(w.s, n, false, false), w.call);
    case Remove(n) =>
      CleanedDrops(w.s, n);
      DropStep(w, Cleaned(w.s, n), n, w.call);
    case RemoveAll =>
      RemoveAllStep(w);
  }

  lemma {:induction false} InvHolds(run: seq<Action>)
    ensures Inv(After(run))
  {
    if run != [] {
      hide Inv, Enabled, Apply;
      InvHolds(run[..|run| - 1]);
      InvStep(After(run[..|run| - 1]), run[|run| - 1]);
    }
  }

  /**
   No future is lost: after any run of registry calls in which AsyncBackup calls do not overlap, every
   future issued is the registered one of its name, or its cancel was requested, or the AsyncBackup call
   that issued it is about to store it; and never two of these.
   */
  lemma NoLostFuture(run: seq<Action>, f: nat)
    requires f in After(run).names
    ensures var w := After(run);
            && (f in w.s.requested || Held(w, f) || InHand(w, f))
            && !(f in w.s.requested && Held(w, f)) && !(Held(w, f) && InHand(w, f)) && !(f in w.s.requested && InHand(w, f))
  {
    hide After;
    var w := After(run);
    InvHolds(run);
    if Held(w, f) { assert Current(w.s, w.names[f], f); }
  }

  // -- BackupStatus: register, then get_backup_future, then look at the future

  /** The step, where it happens, cancels whatever is registered under the name. */
  predicate Cancels(w: World, a: Action, name: string) {
    Enabled(w, a) && (a == AsyncRegister(name) || a == SyncRegister(name) || a == Remove(name) || a == RemoveAll)
  }

  lemma DropCancels(s: State, t: State, n: string, name: string, f: nat)
    requires Drops(s, t, n) && Current(s, name, f)
    ensures f in t.requested <==> n == name || f in s.requested || Current(s, n, f)
    ensures n != name ==> Current(t, name, f)
  {
  }

  lemma AllCancelled(s: State, name: string, f: nat)
    requires Current(s, name, f)
    ensures f in AllFutures(RecordsOf(s))
  {
    assert name in RecordsOf(s);
  }

  lemma HeldAlone(w: World, name: string, f: nat)
    requires Inv(w) && Current(w.s, name, f)
    ensures f !in w.s.requested && forall n :: Current(w.s, n, f) ==> n == name
    ensures w.call.Issued? ==> w.call.name != name
  {
    assert Held(w, f);
  }

  /** A registered future stays registered until a step cancels it. */
  lemma OneStepLater(w: World, a: Action, name: string, f: nat)
    requires Inv(w) && Current(w.s, name, f)
    ensures if Cancels(w, a, name) then f in Apply(w, a).s.requested else Current(Apply(w, a).s, name, f)
  {
    HeldAlone(w, name, f);
    if !Enabled(w, a) { return; }
    hide Inv, Drops, SameFutures, Registered, Cleaned, UpdatedOr, AllFutures;
    match a
    case AsyncRegister(n) =>
      OverwriteDrops(w.s, n, true);
      DropCancels(w.s, Registered(w.s, n, true, true), n, name, f);
    case AsyncSubmit(g) =>
    case AsyncStore =>
    case AsyncAbandon =>
      ReportKeeps(w.s, w.call.name, Failed);
      SameCurrent(w.s, UpdatedOr(w.s, w.call.name, Failed), name, f);
    case SyncRegister(n) =>
      OverwriteDrops(w.s, n, false);
      DropCancels(w.s, Registered(w.s, n, false, true), n, name, f);
    case Report(n, status) =>
      ReportKeeps(w.s, n, status);
      SameCurrent(w.s, UpdatedOr(w.s, n, status), name, f);
    case Complete(_, _) =>
    case StatusQuery(n) =>
      QueryKeeps(w.s, n, Unknown);
      SameCurrent(w.s, Registered(w.s, n, false, false), name, f);
    case Remove(n) =>
      CleanedDrops(w.s, n);
      DropCancels(w.s, Cleaned(w.s, n), n, name, f);
    case RemoveAll =>
      AllCancelled(w.s, name, f);
  }

  lemma SameCurrent(s: State, t: State, name: string, f: nat)
    requires SameFutures(s, t) && Current(s, name, f)
    ensures Current(t, name, f)
  {
  }

  /** A cancel cannot be taken back, and what it cancelled does not complete. */
  lemma {:induction false} RequestsStay(run: seq<Action>, rest: seq<Action>, f: nat)
    requires f in After(run).s.requested
    ensures f in After(run + rest).s.requested && (f in After(run + rest).done <==> f in After(run).done)
    decreases |rest|
  {
    hide Apply;
    if rest == [] {
      assert run + rest == run;
    } else {
      var front, last := rest[..|rest| - 1], rest[|rest| - 1];
      RequestsStay(run, front, f);
      assert (run + rest)[..|run + rest| - 1] == run + front;
      RequestsGrow(After(run + front), last);
    }
  }

  lemma RequestsGrow(w: World, a: Action)
    ensures w.s.requested <= Apply(w, a).s.requested && w.done.Keys <= Apply(w, a).done.Keys
    ensures forall f :: f in w.s.requested ==> (f in Apply(w, a).done <==> f in w.done)
  {
  }

  lemma {:induction false} CompletionStays(run: seq<Action>, rest: seq<Action>, f: nat)
    requires f in After(run).done
    ensures f in After(run + rest).done
    decreases |rest|
  {
    hide Apply;
    if rest == [] {
      assert run + rest == run;
    } else {
      var front, last := rest[..|rest| - 1], rest[|rest| - 1];
      CompletionStays(run, front, f);
      assert (run + rest)[..|run + rest| - 1] == run + front;
      RequestsGrow(After(run + front), last);
    }
  }

  lemma AfterMore(run: seq<Action>, a: Action)
    ensures After(run + [a]) == Apply(After(run), a)
  {
    hide Apply;
    assert (run + [a])[..|run|] == run;
  }

  /**
   The race in BackupStatus. The future that get_backup_future hands out is live at that moment. When the
   handler looks at it later, its cancel has been requested if and only if some step in between registered
   the name anew, removed it, or removed everything.
   */
  lemma {:induction false} QueryRace(run: seq<Action>, rest: seq<Action>, name: string, f: nat)
    requires FutureOf(After(run).s, name) == Some(f)
    ensures f !in After(run).s.requested
    ensures f in After(run + rest).s.requested
            <==> exists i :: 0 <= i < |rest| && Cancels(After(run + rest[..i]), rest[i], name)
    ensures f !in After(run + rest).s.requested ==> Current(After(run + rest).s, name, f)
    decreases |rest|
  {
    hide After, Apply, Inv, Cancels;
    InvHolds(run);
    HeldAlone(After(run), name, f);
    if rest == [] {
      assert run + rest == run;
    } else {
      var front, last := rest[..|rest| - 1], rest[|rest| - 1];
      var w := After(run + front);
      QueryRace(run, front, name, f);
      assert run + rest == (run + front) + [last];
      AfterMore(run + front, last);
      InvHolds(run + front);
      forall i | 0 <= i < |front|
        ensures Cancels(After(run + rest[..i]), rest[i], name) <==> Cancels(After(run + front[..i]), front[i], name)
      {
        assert rest[i] == front[i] && rest[..i] == front[..i];
      }
      if f in w.s.requested {
        RequestsStay(run + front, [last], f);
        var i :| 0 <= i < |front| && Cancels(After(run + front[..i]), front[i], name);
        assert Cancels(After(run + rest[..i]), rest[i], name);
      } else {
        OneStepLater(w, last, name, f);
        assert rest[..|front|] == front;
        assert Cancels(w, last, name) <==> Cancels(After(run + rest[..|front|]), rest[|front|], name);
        InvHolds((run + front) + [last]);
        if !Cancels(w, last, name) { HeldAlone(After((run + front) + [last]), name, f); }
      }
    }
  }

  /** What the future says when it is looked at: a cancel has no effect on one that has completed. */
  function ProgressOf(w: World, f: nat): Progress {
    if f in w.done then (if w.done[f] then Returned else Raised)
    else if f in w.s.requested then Cancelled
    else Running
  }

  lemma EscapesWhen(w: World, f: nat, finished: bool)
    ensures Determined(Some(ProgressOf(w, f)), finished).None? <==> f in w.s.requested && f !in w.done
  {
  }

  lemma CancelCompletesNothing(w: World, a: Action, name: string)
    requires Cancels(w, a, name)
    ensures Apply(w, a).done == w.done
  {
  }

  /** A step that would cancel the future while it is not done leaves it requested and never done. */
  lemma CancelledForGood(run: seq<Action>, rest: seq<Action>, name: string, f: nat, i: nat)
    requires FutureOf(After(run).s, name) == Some(f) && i < |rest|
    requires Cancels(After(run + rest[..i]), rest[i], name) && f !in After(run + rest[..i]).done
    ensures f in After(run + rest).s.requested && f !in After(run + rest).done
  {
    hide After, Apply, Cancels, Inv, Enabled;
    var upto, tail := rest[..i + 1], rest[i + 1..];
    assert upto[..i] == rest[..i] && upto[i] == rest[i];
    QueryRace(run, upto, name, f);
    assert run + upto == (run + rest[..i]) + [rest[i]];
    AfterMore(run + rest[..i], rest[i]);
    CancelCompletesNothing(After(run + rest[..i]), rest[i], name);
    RequestsStay(run + upto, tail, f);
    assert (run + upto) + tail == run + rest;
  }

  lemma CompletedBy(run: seq<Action>, rest: seq<Action>, i: nat, f: nat)
    requires i <= |rest|
    ensures f in After(run + rest[..i]).done ==> f in After(run + rest).done
  {
    hide After;
    assert (run + rest[..i]) + rest[i..] == run + rest;
    if f in After(run + rest[..i]).done { CompletionStays(run + rest[..i], rest[i..], f); }
  }

  /**
   So a cancellation escapes from BackupStatus, as an exception it does not catch, if and only if some step
   between reading the future and looking at it cancelled it while its backup had not come to an end.
   */
  lemma CancellationEscapes(run: seq<Action>, rest: seq<Action>, name: string, f: nat, finished: bool)
    requires FutureOf(After(run).s, name) == Some(f)
    ensures Determined(Some(ProgressOf(After(run + rest), f)), finished).None?
            <==> exists i :: 0 <= i < |rest| && Cancels(After(run + rest[..i]), rest[i], name) && f !in After(run + rest[..i]).done
  {
    hide After, Apply, Cancels, Inv, Enabled, ProgressOf, Determined;
    EscapesWhen(After(run + rest), f, finished);
    if f in After(run + rest).s.requested && f !in After(run + rest).done {
      QueryRace(run, rest, name, f);
      var i :| 0 <= i < |rest| && Cancels(After(run + rest[..i]), rest[i], name);
      CompletedBy(run, rest, i, f);
    }
    if i :| 0 <= i < |rest| && Cancels(After(run + rest[..i]), rest[i], name) && f !in After(run + rest[..i]).done {
      CancelledForGood(run, rest, name, f, i);
    }
  }

  // -- what a query answers

  /** The thread behind the future came to its end in the run, before any cancel. */
  ghost predicate Ended(run: seq<Action>, f: nat, returned: bool) {
    exists i :: 0 <= i < |run| && Enabled(After(run[..i]), run[i]) && run[i] == Complete(f, returned)
  }

  lemma DoneStep(w: World, a: Action, f: nat, returned: bool)
    ensures f in Apply(w, a).done && Apply(w, a).done[f] == returned
            <==> (f in w.done && w.done[f] == returned) || (Enabled(w, a) && a == Complete(f, returned))
  {
  }

  lemma EndedStep(run: seq<Action>, f: nat, returned: bool)
    requires run != []
    ensures var front, last := run[..|run| - 1], run[|run| - 1];
            Ended(run, f, returned) <==> Ended(front, f, returned) || (Enabled(After(front), last) && last == Complete(f, returned))
  {
    hide Enabled, After;
    var front := run[..|run| - 1];
    assert forall i :: 0 <= i < |front| ==> run[..i] == front[..i] && run[i] == front[i];
    if Ended(front, f, returned) {
      var i :| 0 <= i < |front| && Enabled(After(front[..i]), front[i]) && front[i] == Complete(f, returned);
      assert Enabled(After(run[..i]), run[i]);
    }
  }

  lemma {:induction false} DoneExactly(run: seq<Action>, f: nat, returned: bool)
    ensures f in After(run).done && After(run).done[f] == returned <==> Ended(run, f, returned)
  {
    if run != [] {
      hide Enabled, Apply, Ended;
      DoneExactly(run[..|run| - 1], f, returned);
      DoneStep(After(run[..|run| - 1]), run[|run| - 1], f, returned);
      EndedStep(run, f, returned);
    }
  }

  /**
   What BackupStatus answers, for every run: without a future the finish entry alone decides. With one, the
   backup is in progress if and only if its thread has not ended and no step since the future was read
   cancelled it; it has succeeded if the thread returned and the backup is finished; it has failed if the
   thread raised, or returned without a finished backup.
   */
  lemma QueryAnswers(run: seq<Action>, rest: seq<Action>, name: string, f: nat, finished: bool)
    requires FutureOf(After(run).s, name) == Some(f)
    ensures Determined(None, finished) == Some(if finished then Success else Failed)
    ensures var r := Determined(Some(ProgressOf(After(run + rest), f)), finished);
            var returned, raised := Ended(run + rest, f, true), Ended(run + rest, f, false);
            var cancelled := exists i :: 0 <= i < |rest| && Cancels(After(run + rest[..i]), rest[i], name);
            && (r == Some(InProgress) <==> !returned && !raised && !cancelled)
            && (r == Some(Success) <==> returned && finished)
            && (r == Some(Failed) <==> raised || (returned && !finished))
            && (r == None <==> !returned && !raised && cancelled)
  {
    hide After, Cancels, Ended, Enabled, Apply;
    QueryRace(run, rest, name, f);
    DoneExactly(run + rest, f, true);
    DoneExactly(run + rest, f, false);
  }

  // -- the recorded status

  /** What is recorded for a name beside its future. */
  datatype Note = Note(status: Status, isAsync: bool)

  function NoteOf(s: State, name: string): Option<Note> {
    if name in RecordsOf(s) then Some(Note(RecordsOf(s)[name].status, RecordsOf(s)[name].isAsync)) else None
  }

  /**
   What a step notes for a name: an unknown status, when it registers the name or gives it a future, and in
   which mode; the status it reports, while the name is registered; nothing any more, when it removes it. None:
   it leaves the note alone.
   */
  function Says(w: World, a: Action, name: string): Option<Option<Note>> {
    var registered := name in RecordsOf(w.s);
    if !Enabled(w, a) then None
    else
      match a
      case AsyncRegister(n) => if n == name then Some(Some(Note(Unknown, true))) else None
      case SyncRegister(n) => if n == name then Some(Some(Note(Unknown, false))) else None
      case StatusQuery(n) => if n == name && !registered then Some(Some(Note(Unknown, false))) else None
      case AsyncStore => if w.call.name == name then Some(Some(Note(Unknown, true))) else None
      case Report(n, status) => if n == name && registered then Some(Some(Note(status, RecordsOf(w.s)[name].isAsync))) else None
      case AsyncAbandon => if w.call.name == name && registered then Some(Some(Note(Failed, RecordsOf(w.s)[name].isAsync))) else None
      case Remove(n) => if n == name then Some(None) else None
      case RemoveAll => Some(None)
      case AsyncSubmit(_) => None
      case Complete(_, _) => None
  }

  lemma NoteStep(w: World, a: Action, name: string)
    ensures NoteOf(Apply(w, a).s, name) == match Says(w, a, name) case None => NoteOf(w.s, name) case Some(r) => r
  {
    hide AllFutures;
  }

  /** A step that says something about the name, with no later one that does. */
  ghost predicate LastSaid(run: seq<Action>, name: string, i: nat) {
    && i < |run| && Says(After(run[..i]), run[i], name).Some?
    && forall j :: i < j < |run| ==> Says(After(run[..j]), run[j], name).None?
  }

  lemma LastSaidStep(run: seq<Action>, name: string, i: nat)
    requires run != []
    ensures var front, last := run[..|run| - 1], run[|run| - 1];
            LastSaid(run, name, i) <==>
              if i == |front| then Says(After(front), last, name).Some?
              else LastSaid(front, name, i) && Says(After(front), last, name).None?
  {
    hide Says, After;
    var front := run[..|run| - 1];
    assert forall j :: 0 <= j < |front| ==> run[..j] == front[..j] && run[j] == front[j];
    assert run[..|front|] == front;
    if i < |front| && LastSaid(run, name, i) {
      forall j | i < j < |front| ensures Says(After(front[..j]), front[j], name).None? { assert run[j] == front[j]; }
    }
  }

  /**
   The status recorded for a name is what was last said about it: the last status reported since it was last
   registered or given a future, Unknown if there was none, and nothing once it has been removed; with it goes
   whether it was last registered as an asynchronous backup.
   */
  lemma {:induction false} StatusExactly(run: seq<Action>, name: string)
    ensures NoteOf(After(run).s, name).Some? ==> exists i: nat :: LastSaid(run, name, i)
    ensures forall i: nat :: LastSaid(run, name, i) ==> Some(NoteOf(After(run).s, name)) == Says(After(run[..i]), run[i], name)
  {
    if run == [] {
      NothingSaid(name);
    } else {
      hide Says, Apply, LastSaid;
      var front, last := run[..|run| - 1], run[|run| - 1];
      StatusExactly(front, name);
      NoteStep(After(front), last, name);
      forall i: nat ensures LastSaid(run, name, i) <==>
                              if i == |front| then Says(After(front), last, name).Some?
                              else LastSaid(front, name, i) && Says(After(front), last, name).None?
      {
        LastSaidStep(run, name, i);
      }
      forall i: nat | LastSaid(run, name, i) ensures Some(NoteOf(After(run).s, name)) == Says(After(run[..i]), run[i], name) {
        if i == |front| {
          assert run[..i] == front;
        } else {
          LastSaidIn(front, name, i);
          assert run[..i] == front[..i] && run[i] == front[i];
        }
      }
      if Says(After(front), last, name).Some? {
        assert LastSaid(run, name, |front|);
      } else if NoteOf(After(front).s, name).Some? {
        var i: nat :| LastSaid(front, name, i);
        LastSaidIn(front, name, i);
        assert LastSaid(run, name, i);
      }
    }
  }

  lemma LastSaidIn(run: seq<Action>, name: string, i: nat)
    requires LastSaid(run, name, i)
    ensures i < |run|
  {
    hide Says, After;
  }

  lemma NothingSaid(name: string)
    ensures NoteOf(After([]).s, name) == None && forall i: nat :: !LastSaid([], name, i)
  {
    hide Says;
  }

  /** It does happen: an AsyncBackup call for the queried name comes in between. */
  lemma QueryMeetsCancelled(name: string, finished: bool)
    requires name != ""
    ensures var run := [AsyncRegister(name), AsyncSubmit(0), AsyncStore, StatusQuery(name)];
            && FutureOf(After(run).s, name) == Some(0) && 0 !in After(run).s.requested
            && ProgressOf(After(run), 0) == Running
            && Determined(Some(ProgressOf(After(run + [AsyncRegister(name)]), 0)), finished).None?
  {
    var run1 := [AsyncRegister(name)];
    var run2 := run1 + [AsyncSubmit(0)];
    var run3 := run2 + [AsyncStore];
    var run4 := run3 + [StatusQuery(name)];
    assert [] + [AsyncRegister(name)] == run1;
    AfterMore([], AsyncRegister(name));
    AfterMore(run1, AsyncSubmit(0));
    AfterMore(run2, AsyncStore);
    AfterMore(run3, StatusQuery(name));
    AfterMore(run4, AsyncRegister(name));
    assert run4 == [AsyncRegister(name), AsyncSubmit(0), AsyncStore, StatusQuery(name)];
    hide After;
    assert After([]) == Initial by { NothingRun(); }
    var w1 := After(run1);
    assert w1 == Initial.(s := Registered(Initial.s, name, true, true), call := Announced(name));
    var w3 := After(run3);
    assert Current(w3.s, name, 0);
  }

  lemma NothingRun()
    ensures After([]) == Initial
  {
  }

  /**
   What NoLostFuture needs its hypothesis for: if two callers both registered a name before either stored
   its future, the second store would replace the first future, which nobody cancels. AsyncBackup is a
   coroutine that never waits between the two calls, so two of its calls do not interleave like this.
   */
  lemma OverlapLosesFuture(s: State, name: string, f: nat, g: nat)
    requires f != g && f !in s.requested && forall n :: !Current(s, n, f)
    ensures var both := Registered(Registered(s, name, true, true), name, true, true);
            var t := WithFuture(WithFuture(both, name, f), name, g);
            f !in t.requested && forall n :: !Current(t, n, f)
  {
    var one := Registered(s, name, true, true);
    OverwriteDrops(s, name, true);
    OverwriteDrops(one, name, true);
    assert !Current(s, name, f);
    var both := Registered(one, name, true, true);
    var t := WithFuture(WithFuture(both, name, f), name, g);
    forall n ensures !Current(t, n, f) {
      assert !Current(s, n, f);
    }
  }
}
