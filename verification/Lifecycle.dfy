/** Lifecycle bookkeeping of the controller (controller/state.py) and the switching
    policy (controller/policies.py). `Book` is the value of the two fields the mark
    methods change; `ControllerState` is the object that changes them in place. */
module Lifecycle {
  import opened Wrappers

  type Alias = string

  datatype ModelState = Unknown | Awake | Sleeping | Waking | SleepingInProgress | Error

  datatype Book = Book(active: Option<Alias>, states: map<Alias, ModelState>)

  /** The states that must be reconciled by a probe before any decision. */
  predicate IsUnsafe(s: ModelState) {
    s.Error? || s.Unknown? || s.Waking? || s.SleepingInProgress?
  }

  function MarkedAwake(b: Book, m: Alias): Book {
    if m !in b.states then b else Book(Some(m), b.states[m := Awake])
  }

  function MarkedSleeping(b: Book, m: Alias): Book {
    if m !in b.states then b
    else Book(if b.active == Some(m) then None else b.active, b.states[m := Sleeping])
  }

  function MarkedWaking(b: Book, m: Alias): Book {
    if m !in b.states then b else b.(states := b.states[m := Waking])
  }

  function MarkedSleepingInProgress(b: Book, m: Alias): Book {
    if m !in b.states then b else b.(states := b.states[m := SleepingInProgress])
  }

  function MarkedError(b: Book, m: Alias): Book {
    if m !in b.states then b
    else Book(if b.active == Some(m) then None else b.active, b.states[m := Error])
  }

  function MarkedErrors(b: Book, ms: seq<Alias>): Book
    decreases |ms|
  {
    if ms == [] then b else MarkedErrors(MarkedError(b, ms[0]), ms[1..])
  }

  /** The aliases among `names` whose state is unsafe, in the order of `names`. */
  function UnsafeOf(names: seq<Alias>, states: map<Alias, ModelState>): seq<Alias> {
    if names == [] then []
    else
      var rest := UnsafeOf(names[1..], states);
      if names[0] in states && IsUnsafe(states[names[0]]) then [names[0]] + rest else rest
  }

  /** The configured start: a named startup model is taken to be awake and all others
      asleep; without one every state is unknown. An unconfigured startup model is refused. */
  function FromModels(names: seq<Alias>, startup: Option<Alias>): Result<Book, Alias> {
    match startup
    case None => Ok(Book(None, map n | n in names :: Unknown))
    case Some(m) =>
      if m !in names then Err(m)
      else Ok(Book(Some(m), map n | n in names :: if n == m then Awake else Sleeping))
  }

  // ---------------------------------------------------------------------------
  // Reservations: `_active_requests`

  type Counts = map<Alias, nat>

  function CountOf(act: Counts, m: Alias): nat {
    if m in act then act[m] else 0
  }

  function WithEnter(act: Counts, m: Alias): Counts {
    act[m := CountOf(act, m) + 1]
  }

  /** Leaving the reservation; `None` is the `KeyError` of a missing entry. */
  function WithExit(act: Counts, m: Alias): Option<Counts> {
    if m !in act then None
    else if act[m] == 1 then Some(act - {m})
    else if act[m] == 0 then None // a zero entry would become -1
    else Some(act[m := act[m] - 1])
  }

  /** The condition awaited before the previous model may be put to sleep. */
  predicate OthersDrained(act: Counts, target: Alias) {
    forall m <- act :: m == target || act[m] == 0
  }

  // ---------------------------------------------------------------------------
  // Policy

  datatype Decision = Decision(sleep: seq<Alias>, wake: Option<Alias>, drain: bool)

  /** `AlwaysSleepPreviousPolicy.decide`; `None` is its `KeyError`. */
  function Decide(active: Option<Alias>, target: Alias, states: map<Alias, ModelState>): Option<Decision> {
    if target !in states then None
    else if active == Some(target) && states[target] == Awake then Some(Decision([], None, false))
    else if active == None || active == Some(target) then Some(Decision([], Some(target), false))
    else Some(Decision([active.value], Some(target), true))
  }

  /** The policy, case by case: an unknown target is refused; the awake active target needs
      nothing; without another active model the target is woken; and otherwise the active one is
      put to sleep first, once the other reservations are gone. */
  lemma DecideMeans(active: Option<Alias>, target: Alias, states: map<Alias, ModelState>)
    ensures var d := Decide(active, target, states);
      && (d.None? <==> target !in states)
      && (target in states && active == Some(target) && states[target].Awake? ==> d == Some(Decision([], None, false)))
      && (target in states && active == Some(target) && !states[target].Awake? ==>
            d == Some(Decision([], Some(target), false)))
      && (target in states && active.None? ==> d == Some(Decision([], Some(target), false)))
      && (target in states && active.Some? && active.value != target ==>
            d == Some(Decision([active.value], Some(target), true)))
  {
  }

  // ---------------------------------------------------------------------------
  // The mutable object

  class ControllerState {
    var activeModel: Option<Alias>
    var modelStates: map<Alias, ModelState>
    var startupReconciled: bool
    var activeRequests: Counts

    function View(): Book
      reads this
    {
      Book(activeModel, modelStates)
    }

    constructor(names: seq<Alias>, startup: Option<Alias>)
      requires startup.Some? ==> startup.value in names
      ensures Ok(View()) == FromModels(names, startup)
      ensures !startupReconciled && activeRequests == map[]
    {
      activeModel := startup;
      if startup.Some? {
        modelStates := map n | n in names :: if n == startup.value then Awake else Sleeping;
      } else {
        modelStates := map n | n in names :: Unknown;
      }
      startupReconciled := false;
      activeRequests := map[];
    }

    /** Each mark refuses an alias that is not configured and then changes nothing. */
    method MarkAwake(m: Alias) returns (known: bool)
      modifies `activeModel, `modelStates
      ensures known == (m in old(modelStates))
      ensures View() == MarkedAwake(old(View()), m)
      ensures known ==> modelStates == old(modelStates)[m := Awake] && activeModel == Some(m)
      ensures !known ==> unchanged(this)
    {
      if m !in modelStates { return false; }
      modelStates := modelStates[m := Awake];
      activeModel := Some(m);
      return true;
    }

    method MarkSleeping(m: Alias) returns (known: bool)
      modifies `activeModel, `modelStates
      ensures known == (m in old(modelStates))
      ensures View() == MarkedSleeping(old(View()), m)
      ensures known ==> modelStates == old(modelStates)[m := Sleeping] && activeModel == (if old(activeModel) == Some(m) then None else old(activeModel))
      ensures !known ==> unchanged(this)
    {
      if m !in modelStates { return false; }
      modelStates := modelStates[m := Sleeping];
      if activeModel == Some(m) { activeModel := None; }
      return true;
    }

    method MarkWaking(m: Alias) returns (known: bool)
      modifies `modelStates
      ensures known == (m in old(modelStates))
      ensures View() == MarkedWaking(old(View()), m)
      ensures known ==> modelStates == old(modelStates)[m := Waking]
      ensures !known ==> unchanged(this)
    {
      if m !in modelStates { return false; }
      modelStates := modelStates[m := Waking];
      return true;
    }

    method MarkSleepingInProgress(m: Alias) returns (known: bool)
      modifies `modelStates
      ensures known == (m in old(modelStates))
      ensures View() == MarkedSleepingInProgress(old(View()), m)
      ensures known ==> modelStates == old(modelStates)[m := SleepingInProgress]
      ensures !known ==> unchanged(this)
    {
      if m !in modelStates { return false; }
      modelStates := modelStates[m := SleepingInProgress];
      return true;
    }

    method MarkError(m: Alias) returns (known: bool)
      modifies `activeModel, `modelStates
      ensures known == (m in old(modelStates))
      ensures View() == MarkedError(old(View()), m)
      ensures known ==> modelStates == old(modelStates)[m := Error] && activeModel == (if old(activeModel) == Some(m) then None else old(activeModel))
      ensures !known ==> unchanged(this)
    {
      if m !in modelStates { return false; }
      modelStates := modelStates[m := Error];
      if activeModel == Some(m) { activeModel := None; }
      return true;
    }

    /** The two atomic sections of `track_request`. */
    method EnterRequest(m: Alias) returns (known: bool)
      modifies `activeRequests
      ensures known == (m in modelStates)
      ensures activeRequests == if known then WithEnter(old(activeRequests), m) else old(activeRequests)
    {
      if m !in modelStates { return false; }
      activeRequests := activeRequests[m := (if m in activeRequests then activeRequests[m] else 0) + 1];
      return true;
    }

    /** Leaving; a missing entry is refused (the `KeyError` of the source). */
    method ExitRequest(m: Alias) returns (known: bool)
      requires m in activeRequests ==> activeRequests[m] > 0
      modifies `activeRequests
      ensures known == WithExit(old(activeRequests), m).Some?
      ensures known ==> Some(activeRequests) == WithExit(old(activeRequests), m)
      ensures !known ==> activeRequests == old(activeRequests)
    {
      if m !in activeRequests { return false; }
      var active := activeRequests[m] - 1;
      if active != 0 {
        activeRequests := activeRequests[m := active];
      } else {
        activeRequests := activeRequests - {m};
      }
      return true;
    }
  }

  /** `from_models`: a startup model that is not configured is refused. */
  method NewState(names: seq<Alias>, startup: Option<Alias>) returns (r: Result<ControllerState, Alias>)
    ensures r.Ok? ==> fresh(r.value) && FromModels(names, startup) == Ok(r.value.View())
                      && !r.value.startupReconciled && r.value.activeRequests == map[]
    ensures r.Err? ==> FromModels(names, startup) == Err(r.error)
    ensures r.Err? <==> startup.Some? && startup.value !in names
    ensures r.Ok? ==> r.value.activeModel == startup && forall n :: n in r.value.modelStates <==> n in names
    ensures r.Ok? ==> forall n <- names ::
              r.value.modelStates[n] == if startup == Some(n) then Awake else if startup.Some? then Sleeping else Unknown
  {
    if startup.Some? && startup.value !in names {
      return Err(startup.value);
    }
    var st := new ControllerState(names, startup);
    return Ok(st);
  }
}
