/**
 The admission gate in front of a media server: durable activity evidence, and the latch that
 closes an idle activation. The barrier makes every request one step; the clock, the queue,
 the authority file's mode and the fate of each write are inputs.
 */
module ComfyGate {
  import opened Wrappers

  /** The activity file's record. */
  datatype Evidence = Evidence(activation: string, lastActivityAt: int, busy: bool, idleClosed: bool)

  datatype File = Missing | Unreadable | Saved(evidence: Evidence)

  /** A save may fail before or after it has replaced the file. */
  datatype SaveFate = Durable | FailedBefore | FailedAfter

  /** The file, and the memory of the process in front of it. */
  datatype State = State(file: File, activation: string, record: Option<Evidence>, failed: bool)

  /** What one observation reads from outside, and how its saves go. */
  datatype Reading = Reading(createdAt: real, observedAt: real, busy: bool, creation: SaveFate, change: SaveFate)

  // ---------------------------------------------------------------- specification of `Activity`

  function Max(a: int, b: int): int {
    if a >= b then a else b
  }

  /** `save` of a record that is already in memory. */
  function AfterSave(s: State, fate: SaveFate): State
    requires s.record.Some?
  {
    State(if fate == FailedBefore then s.file else Saved(s.record.value), s.activation, s.record,
      s.failed || fate != Durable)
  }

  predicate Fits(s: State) {
    s.record.Some? && s.record.value.activation == s.activation
  }

  /** The record in force before the queue is looked at; an error when there is none. */
  function AfterLoad(s: State, reading: Reading): (r: (State, bool))
    ensures r.1 ==> r.0.record.Some?
  {
    if Fits(s) then
      (s, true)
    else if s.file.Unreadable? then
      (s, false)
    else if s.file.Saved? && s.file.evidence.activation == s.activation then
      (s.(record := Some(s.file.evidence)), true)
    else
      var created := Evidence(s.activation, reading.createdAt.Floor, false, false);
      (AfterSave(s.(record := Some(created)), reading.creation), reading.creation == Durable)
  }

  predicate CountsAsActivity(record: Evidence, reading: Reading, accepted: bool) {
    accepted || reading.busy || record.busy
  }

  function Updated(record: Evidence, reading: Reading, accepted: bool): Evidence {
    record.(
      lastActivityAt :=
        if CountsAsActivity(record, reading, accepted) then
          Max(record.lastActivityAt, reading.observedAt.Floor)
        else
          record.lastActivityAt,
      busy := reading.busy)
  }

  /** `observe`; no evidence stands for an error response. */
  function AfterObserve(s: State, reading: Reading, accepted: bool): (State, Option<Evidence>) {
    if s.failed || s.activation == "" then
      (s, None)
    else
      var (loaded, sound) := AfterLoad(s, reading);
      if !sound then
        (loaded, None)
      else
        var record := loaded.record.value;
        var updated := Updated(record, reading, accepted);
        if updated == record then
          (loaded, Some(record))
        else
          (AfterSave(loaded.(record := Some(updated)), reading.change),
            if reading.change == Durable then Some(updated) else None)
  }

  /** `close_if_idle` */
  function AfterClose(s: State, reading: Reading, seconds: nat, clock: real, fate: SaveFate)
    : (State, Option<Evidence>)
  {
    var (observed, value) := AfterObserve(s, reading, false);
    if value.None? then
      (observed, None)
    else if !value.value.busy && clock - value.value.lastActivityAt as real >= seconds as real then
      var closed := value.value.(idleClosed := true);
      (AfterSave(observed.(record := Some(closed)), fate), if fate == Durable then Some(closed) else None)
    else
      (observed, value)
  }

  // ---------------------------------------------------------------- the imperative `Activity`

  class Activity {
    var file: File
    const activation: string
    var record: Option<Evidence>
    var failed: bool

    constructor (file: File, activation: string)
      ensures Current() == Started(file, activation)
    {
      this.file := file;
      this.activation := activation;
      this.record := None;
      this.failed := false;
    }

    function Current(): State
      reads this
    {
      State(file, activation, record, failed)
    }

    method Save(fate: SaveFate) returns (r: Result<()>)
      requires record.Some?
      modifies this
      ensures Current() == AfterSave(old(Current()), fate)
      ensures r.Ok? <==> fate == Durable
    {
      if fate != FailedBefore {
        file := Saved(record.value);
      }
      if fate != Durable {
        failed := true;
        return Err(false);
      }
      return Ok(());
    }

    method Load(reading: Reading) returns (r: Result<()>)
      modifies this
      ensures Current() == AfterLoad(old(Current()), reading).0
      ensures r.Ok? <==> AfterLoad(old(Current()), reading).1
      ensures r.Ok? ==> record.Some?
    {
      if record.None? || record.value.activation != activation {
        if file.Unreadable? {
          return Err(false);
        }
        record := if file.Saved? && file.evidence.activation == activation then Some(file.evidence) else None;
        if record.None? {
          record := Some(Evidence(activation, reading.createdAt.Floor, false, false));
          r := Save(reading.creation);
          return;
        }
      }
      return Ok(());
    }

    method Observe(reading: Reading, accepted: bool) returns (r: Result<Evidence>)
      modifies this
      ensures Current() == AfterObserve(old(Current()), reading, accepted).0
      ensures r.Ok? <==> AfterObserve(old(Current()), reading, accepted).1.Some?
      ensures r.Ok? ==> Some(r.value) == AfterObserve(old(Current()), reading, accepted).1
      ensures r.Ok? ==> record == Some(r.value)
    {
      if failed || activation == "" {
        return Err(false);
      }
      var _ :- Load(reading);
      var before := record.value;
      if accepted || reading.busy || record.value.busy {
        record := Some(record.value.(lastActivityAt := Max(record.value.lastActivityAt, reading.observedAt.Floor)));
      }
      record := Some(record.value.(busy := reading.busy));
      if record.value != before {
        var _ :- Save(reading.change);
      }
      return Ok(record.value);
    }

    method CloseIfIdle(reading: Reading, seconds: nat, clock: real, fate: SaveFate) returns (r: Result<Evidence>)
      modifies this
      ensures Current() == AfterClose(old(Current()), reading, seconds, clock, fate).0
      ensures r.Ok? <==> AfterClose(old(Current()), reading, seconds, clock, fate).1.Some?
      ensures r.Ok? ==> Some(r.value) == AfterClose(old(Current()), reading, seconds, clock, fate).1
    {
      var value :- Observe(reading, false);
      if !value.busy && clock - value.lastActivityAt as real >= seconds as real {
        record := Some(value.(idleClosed := true));
        var _ :- Save(fate);
      }
      return Ok(record.value);
    }
  }

  function Started(file: File, activation: string): State {
    State(file, activation, None, false)
  }

  // ---------------------------------------------------------------- requests

  datatype Mode = Closed | Interactive | Managed

  /** `first` and `second` are the observations a request may make, `mode` is the authority's. */
  datatype Event =
    | Restart(activation: string)
    | Status(first: Reading)
    | Idle(first: Reading, activation: string, seconds: int, clock: real, fate: SaveFate)
    | AdmitJob(first: Reading, second: Reading, activation: string, mode: Mode)
    | Mutate(first: Reading, second: Reading, authentic: bool, access: Mode, mode: Mode, prompt: bool, succeeded: bool)

  /** `admitted`: work was let through; `evidence`: what the response reports. */
  datatype Response = Response(admitted: bool, evidence: Option<Evidence>)

  function Effective(mode: Mode, evidence: Evidence): Mode {
    if evidence.idleClosed then Closed else mode
  }

  /** The middleware on an authentic control request or a mutating request. */
  function Serve(s: State, event: Event): (State, Response) {
    match event
    case Restart(activation) => (Started(s.file, activation), Response(false, None))
    case Status(first) =>
      var (t, evidence) := AfterObserve(s, first, false);
      (t, Response(false, evidence))
    case Idle(first, activation, seconds, clock, fate) =>
      if seconds < 1 || seconds > 86400 || activation != s.activation then
        (s, Response(false, None))
      else
        var (t, evidence) := AfterClose(s, first, seconds, clock, fate);
        (t, Response(false, evidence))
    case AdmitJob(first, second, activation, mode) =>
      var (t, evidence) := AfterObserve(s, first, false);
      if evidence.None? || Effective(mode, evidence.value) != Managed || activation != s.activation then
        (t, Response(false, None))
      else
        var (u, accepted) := AfterObserve(t, second, true);
        (u, Response(accepted.Some?, accepted))
    case Mutate(first, second, authentic, access, mode, prompt, succeeded) =>
      var (t, evidence) := AfterObserve(s, first, false);
      if evidence.None? || !authentic || Effective(mode, evidence.value) == Closed
        || access != Effective(mode, evidence.value) then
        (t, Response(false, None))
      else if prompt && succeeded then
        (AfterObserve(t, second, true).0, Response(true, None))
      else
        (t, Response(true, None))
  }

  /** A process that finds no record of its own activation begins one at the creation time, open and not
      busy; what the queue shows is then noted in it. */
  lemma FirstObservation(s: State, reading: Reading, accepted: bool)
    requires !s.failed && s.activation != "" && !Fits(s) && !s.file.Unreadable?
    requires s.file.Saved? ==> s.file.evidence.activation != s.activation
    requires reading.creation == Durable && reading.change == Durable
    ensures var (t, evidence) := AfterObserve(s, reading, accepted);
      evidence == Some(Evidence(s.activation,
        if (accepted || reading.busy) && reading.observedAt.Floor >= reading.createdAt.Floor
        then reading.observedAt.Floor else reading.createdAt.Floor,
        reading.busy, false))
  {
  }

  /** A status request reports what is then in memory and on disk, and admits nothing. */
  lemma StatusReports(s: State, reading: Reading)
    requires Agrees(s)
    ensures var (t, response) := Serve(s, Status(reading));
      && !response.admitted
      && (response.evidence.Some? ==> t.record == response.evidence && t.file == Saved(response.evidence.value))
      && (response.evidence.None? <==> AfterObserve(s, reading, false).1.None?)
  {
    hide AfterObserve;
    ObserveKeepsAgreement(s, reading, false);
  }

  // ---------------------------------------------------------------- the latch

  /** Memory and file agree as long as no save has failed. */
  predicate Agrees(s: State) {
    && (s.record.Some? ==> s.record.value.activation == s.activation)
    && (s.record.Some? && !s.failed ==> s.file == Saved(s.record.value))
  }

  predicate FileNames(s: State, activation: string) {
    s.file.Saved? && s.file.evidence.activation == activation
  }

  /** The latch of `activation` is down, in the file and in the memory of its process. */
  predicate Latched(s: State, activation: string) {
    && FileNames(s, activation)
    && s.file.evidence.idleClosed
    && (s.activation == activation && s.record.Some? ==> s.record.value.idleClosed)
  }

  lemma ObserveKeepsAgreement(s: State, reading: Reading, accepted: bool)
    requires Agrees(s)
    ensures Agrees(AfterObserve(s, reading, accepted).0)
    ensures var (t, evidence) := AfterObserve(s, reading, accepted);
      evidence.Some? ==> !t.failed && t.file == Saved(evidence.value) && t.record == evidence
    ensures AfterObserve(s, reading, accepted).0.activation == s.activation
  {
  }

  lemma ServeKeepsAgreement(s: State, event: Event)
    requires Agrees(s)
    ensures Agrees(Serve(s, event).0)
  {
    hide AfterObserve;
    match event
    case Restart(_) =>
    case Status(first) => ObserveKeepsAgreement(s, first, false);
    case Idle(first, _, _, _, _) => ObserveKeepsAgreement(s, first, false);
    case AdmitJob(first, second, _, _) =>
      ObserveKeepsAgreement(s, first, false);
      ObserveKeepsAgreement(AfterObserve(s, first, false).0, second, true);
    case Mutate(first, second, _, _, _, _, _) =>
      ObserveKeepsAgreement(s, first, false);
      ObserveKeepsAgreement(AfterObserve(s, first, false).0, second, true);
  }

  /** A response that reports a closed activation means that its latch is on disk. */
  lemma ReportMeansLatched(s: State, event: Event)
    requires Agrees(s) && Serve(s, event).1.evidence.Some? && Serve(s, event).1.evidence.value.idleClosed
    ensures Latched(Serve(s, event).0, s.activation)
  {
    hide AfterObserve;
    match event
    case Restart(_) =>
    case Status(first) => ObserveKeepsAgreement(s, first, false);
    case Idle(first, _, _, _, _) => ObserveKeepsAgreement(s, first, false);
    case AdmitJob(first, second, _, _) =>
      ObserveKeepsAgreement(s, first, false);
      ObserveKeepsAgreement(AfterObserve(s, first, false).0, second, true);
    case Mutate(_, _, _, _, _, _, _) =>
  }

  /** A process of another activation that is about to look at the queue: it finds no record of
      its own and makes one. All of this is known before the observation. */
  predicate Replaces(s: State, reading: Reading, activation: string) {
    s.activation != activation && s.activation != "" && !s.failed && reading.creation != FailedBefore
  }

  /** Does the request get as far as an observation? */
  predicate Observes(s: State, event: Event) {
    match event
    case Restart(_) => false
    case Idle(_, activation, seconds, _, _) => 1 <= seconds <= 86400 && activation == s.activation
    case _ => true
  }

  /** The event takes the file away from `activation`. */
  predicate Displaces(s: State, event: Event, activation: string) {
    Observes(s, event) && Replaces(s, event.first, activation)
  }

  lemma ObserveKeepsLatch(s: State, reading: Reading, accepted: bool, activation: string)
    requires Agrees(s) && Latched(s, activation)
    ensures var (t, evidence) := AfterObserve(s, reading, accepted);
      && (Latched(t, activation) <==> !Replaces(s, reading, activation))
      && (FileNames(t, activation) <==> !Replaces(s, reading, activation))
      && (!Replaces(s, reading, activation) && s.activation != activation ==> t.failed || t.activation == "")
      && (s.activation == activation ==> evidence.Some? ==> evidence.value.idleClosed)
  {
  }

  lemma CloseKeepsLatch(s: State, reading: Reading, seconds: nat, clock: real, fate: SaveFate, activation: string)
    requires Agrees(s) && Latched(s, activation)
    ensures var t := AfterClose(s, reading, seconds, clock, fate).0;
      Latched(t, activation) <==> !Replaces(s, reading, activation)
  {
    hide AfterObserve;
    ObserveKeepsAgreement(s, reading, false);
    ObserveKeepsLatch(s, reading, false, activation);
  }

  /** Once down, a latch stays down exactly unless a process of another activation gets to make
      its record; no save failure and no restart lifts it. Its own activation admits nothing. */
  lemma LatchHolds(s: State, event: Event, activation: string)
    requires Agrees(s) && Latched(s, activation)
    ensures Latched(Serve(s, event).0, activation) <==> !Displaces(s, event, activation)
    ensures s.activation == activation ==> !Serve(s, event).1.admitted
  {
    hide AfterObserve, AfterClose;
    match event
    case Restart(_) =>
    case Status(first) => ObserveKeepsLatch(s, first, false, activation);
    case Idle(first, _, seconds, clock, fate) =>
      if 1 <= seconds {
        CloseKeepsLatch(s, first, seconds, clock, fate, activation);
      }
    case AdmitJob(first, second, _, _) =>
      TwoObservations(s, first, second, activation);
      if s.activation == activation {
        RefusedWhenClosed(s, event, first);
      }
    case Mutate(first, second, _, _, _, _, _) =>
      TwoObservations(s, first, second, activation);
      if s.activation == activation {
        RefusedWhenClosed(s, event, first);
      }
  }

  /** A request that needs an open gate stops after its first observation when that shows the latch. */
  lemma RefusedWhenClosed(s: State, event: Event, first: Reading)
    requires (event.AdmitJob? && event.first == first) || (event.Mutate? && event.first == first)
    requires var evidence := AfterObserve(s, first, false).1; evidence.Some? ==> evidence.value.idleClosed
    ensures Serve(s, event) == (AfterObserve(s, first, false).0, Response(false, None))
  {
    hide AfterObserve;
    var evidence := AfterObserve(s, first, false).1;
    if evidence.Some? {
      assert forall mode :: Effective(mode, evidence.value) == Closed;
    }
  }

  /** What the first observation leaves of the latch, a second one leaves too. */
  lemma TwoObservations(s: State, first: Reading, second: Reading, activation: string)
    requires Agrees(s) && Latched(s, activation)
    ensures var (t, evidence) := AfterObserve(s, first, false);
      var u := AfterObserve(t, second, true).0;
      && (Latched(t, activation) <==> !Replaces(s, first, activation))
      && (Latched(u, activation) <==> !Replaces(s, first, activation))
      && (s.activation == activation ==> evidence.Some? ==> evidence.value.idleClosed)
  {
    hide AfterObserve;
    var t := AfterObserve(s, first, false).0;
    ObserveKeepsLatch(s, first, false, activation);
    ObserveKeepsAgreement(s, first, false);
    if Latched(t, activation) {
      ObserveKeepsLatch(t, second, true, activation);
    } else {
      StayReplaced(t, second, activation);
    }
  }

  /** A process never writes another activation's record. */
  lemma StayReplaced(s: State, reading: Reading, activation: string)
    requires s.activation != activation && Agrees(s) && !FileNames(s, activation)
    ensures !FileNames(AfterObserve(s, reading, true).0, activation)
  {
  }

  // ---------------------------------------------------------------- whole runs

  function After(s: State, events: seq<Event>): State
    decreases |events|
  {
    if events == [] then s else After(Serve(s, events[0]).0, events[1..])
  }

  /** No event of the run takes the file away from `activation`. */
  predicate Undisturbed(s: State, events: seq<Event>, activation: string)
    decreases |events|
  {
    events == [] || (
      !Displaces(s, events[0], activation) &&
      Undisturbed(Serve(s, events[0]).0, events[1..], activation))
  }

  /** The latch is down after every event of the run. */
  predicate StaysLatched(s: State, events: seq<Event>, activation: string)
    decreases |events|
  {
    events == [] || (
      Latched(Serve(s, events[0]).0, activation) &&
      StaysLatched(Serve(s, events[0]).0, events[1..], activation))
  }

  /** Is any work admitted by a process of `activation`? */
  predicate Admits(s: State, events: seq<Event>, activation: string)
    decreases |events|
  {
    events != [] && (
      (s.activation == activation && Serve(s, events[0]).1.admitted) ||
      Admits(Serve(s, events[0]).0, events[1..], activation))
  }

  /** After a response has reported `idle_closed`, the latch stays down through a run exactly if
      the run is undisturbed, across restarts and failed saves; and then every mutating or
      admit-job request for that activation is refused. */
  lemma {:induction false} IdleLatchIsDurable(s: State, events: seq<Event>, activation: string)
    requires Agrees(s) && Latched(s, activation)
    ensures StaysLatched(s, events, activation) <==> Undisturbed(s, events, activation)
    ensures Undisturbed(s, events, activation) ==>
      !Admits(s, events, activation) && Latched(After(s, events), activation)
    decreases |events|
  {
    hide Serve, Latched, Displaces, Agrees;
    if events != [] {
      var t := Serve(s, events[0]).0;
      LatchHolds(s, events[0], activation);
      ServeKeepsAgreement(s, events[0]);
      if Latched(t, activation) {
        IdleLatchIsDurable(t, events[1..], activation);
      }
    }
  }

  /** While every process serves the same activation, nothing can disturb its latch. */
  lemma {:induction false} OneActivationIsUndisturbed(s: State, events: seq<Event>)
    requires OneActivation(s, events)
    ensures Undisturbed(s, events, s.activation)
    decreases |events|
  {
    if events != [] {
      ActivationStays(s, events[0]);
      OneActivationNext(s, events);
      hide Serve, OneActivation;
      OneActivationIsUndisturbed(Serve(s, events[0]).0, events[1..]);
    }
  }

  predicate OneActivation(s: State, events: seq<Event>) {
    forall i :: 0 <= i < |events| && events[i].Restart? ==> events[i].activation == s.activation
  }

  lemma OneActivationNext(s: State, events: seq<Event>)
    requires OneActivation(s, events) && events != []
    ensures Serve(s, events[0]).0.activation == s.activation
    ensures OneActivation(Serve(s, events[0]).0, events[1..])
  {
    ActivationStays(s, events[0]);
    hide Serve;
  }

  lemma ObserveKeepsActivation(s: State, reading: Reading, accepted: bool)
    ensures AfterObserve(s, reading, accepted).0.activation == s.activation
  {
  }

  lemma ActivationStays(s: State, event: Event)
    ensures Serve(s, event).0.activation == if event.Restart? then event.activation else s.activation
  {
    hide AfterObserve;
    if !event.Restart? {
      ObserveKeepsActivation(s, event.first, false);
      if event.AdmitJob? || event.Mutate? {
        ObserveKeepsActivation(AfterObserve(s, event.first, false).0, event.second, true);
      }
    }
  }

  /** The latch is lost when another activation takes the file and the first one comes back: its
      new process finds no record of its own and starts open. */
  lemma ReturningActivationIsOpen(closed: Evidence, reading: Reading, second: Reading, mode: Mode, other: string)
    requires closed.idleClosed && closed.activation != "" && other != "" && other != closed.activation
    requires reading.creation == Durable && reading.change == Durable && mode != Closed
    ensures var s := State(Saved(closed), closed.activation, Some(closed), false);
      && Agrees(s) && Latched(s, closed.activation)
      && Admits(s, [Restart(other), Status(reading), Restart(closed.activation),
                    Mutate(reading, second, true, mode, mode, false, true)], closed.activation)
  {
    var s := State(Saved(closed), closed.activation, Some(closed), false);
    var s1 := Started(s.file, other);
    var s2 := AfterObserve(s1, reading, false).0;
    assert s2.file.Saved? && s2.file.evidence.activation == other;
    var s3 := Started(s2.file, closed.activation);
    var mutate := Mutate(reading, second, true, mode, mode, false, true);
    assert Serve(s3, mutate).1.admitted;
    assert Admits(s3, [mutate], closed.activation);
    var events := [Restart(other), Status(reading), Restart(closed.activation), mutate];
    assert events[1..] == [Status(reading), Restart(closed.activation), mutate];
    assert events[1..][1..] == [Restart(closed.activation), mutate];
    assert events[1..][1..][1..] == [mutate];
    hide AfterObserve;
    assert Admits(s2, events[1..][1..], closed.activation);
    assert Admits(s1, events[1..], closed.activation);
  }

  // ---------------------------------------------------------------- the idle clock

  /** The times that the record in memory and the record in the file stand for: when the record
      was made, then every accepted, busy or just-finished time that was noted in it. */
  datatype Times = Times(memory: seq<int>, file: seq<int>)

  function Largest(times: seq<int>): int
    requires times != []
  {
    if |times| == 1 then times[0] else Max(Largest(times[..|times| - 1]), times[|times| - 1])
  }

  function Noted(record: Evidence, reading: Reading, accepted: bool): seq<int> {
    if CountsAsActivity(record, reading, accepted) then [reading.observedAt.Floor] else []
  }

  predicate Creates(s: State) {
    !Fits(s) && !s.file.Unreadable? && !FileNames(s, s.activation)
  }

  function LoadTimes(s: State, reading: Reading, times: Times): Times {
    if Creates(s) then
      var created := [reading.createdAt.Floor];
      Times(created, if reading.creation == FailedBefore then times.file else created)
    else if !Fits(s) && FileNames(s, s.activation) then
      times.(memory := times.file)
    else
      times
  }

  function ObserveTimes(s: State, reading: Reading, accepted: bool, times: Times): Times {
    if s.failed || s.activation == "" then
      times
    else
      var (loaded, sound) := AfterLoad(s, reading);
      var begun := LoadTimes(s, reading, times);
      if !sound then
        begun
      else
        var record := loaded.record.value;
        var memory := begun.memory + Noted(record, reading, accepted);
        var written := Updated(record, reading, accepted) == record || reading.change != FailedBefore;
        Times(memory, if written then memory else begun.file)
  }

  /** Every time that one observation notes, kept or not. */
  function NotedBy(s: State, reading: Reading, accepted: bool): seq<int> {
    if s.failed || s.activation == "" then
      []
    else
      var (loaded, sound) := AfterLoad(s, reading);
      (if Creates(s) then [reading.createdAt.Floor] else []) +
      if sound then Noted(loaded.record.value, reading, accepted) else []
  }

  /** The observation of accepted work that a request makes behind its first one. */
  function Second(s: State, event: Event): Option<Reading> {
    match event
    case AdmitJob(first, second, activation, mode) =>
      var evidence := AfterObserve(s, first, false).1;
      if evidence.None? || Effective(mode, evidence.value) != Managed || activation != s.activation then
        None
      else
        Some(second)
    case Mutate(first, second, _, _, _, prompt, succeeded) =>
      if Serve(s, event).1.admitted && prompt && succeeded then Some(second) else None
    case _ => None
  }

  function ServeTimes(s: State, event: Event, times: Times): Times {
    if event.Restart? then
      times.(memory := [])
    else if !Observes(s, event) then
      times
    else
      var begun := ObserveTimes(s, event.first, false, times);
      var second := Second(s, event);
      if second.None? then begun else ObserveTimes(AfterObserve(s, event.first, false).0, second.value, true, begun)
  }

  function NotedIn(s: State, event: Event): seq<int> {
    if !Observes(s, event) then
      []
    else
      var second := Second(s, event);
      NotedBy(s, event.first, false) +
      if second.None? then [] else NotedBy(AfterObserve(s, event.first, false).0, second.value, true)
  }

  function TimesAfter(s: State, events: seq<Event>, times: Times): Times
    decreases |events|
  {
    if events == [] then times else TimesAfter(Serve(s, events[0]).0, events[1..], ServeTimes(s, events[0], times))
  }

  /** Every time that a run notes. */
  function AllNoted(s: State, events: seq<Event>): seq<int>
    decreases |events|
  {
    if events == [] then [] else NotedIn(s, events[0]) + AllNoted(Serve(s, events[0]).0, events[1..])
  }

  /** The times in force: those of the record in memory, or of the one that would be loaded. */
  function Standing(s: State, times: Times): seq<int> {
    if s.record.Some? then times.memory
    else if FileNames(s, s.activation) then times.file
    else []
  }

  /** Memory and file hold the latest of their times. */
  predicate Dated(s: State, times: Times) {
    && (s.record.Some? ==> times.memory != [] && s.record.value.lastActivityAt == Largest(times.memory))
    && (s.file.Saved? ==> times.file != [] && s.file.evidence.lastActivityAt == Largest(times.file))
  }

  /** The file has not taken in what memory has noted: a save failed before the replacement. */
  predicate Behind(s: State) {
    s.record.Some? &&
    !(s.file.Saved? && s.file.evidence.(idleClosed := s.record.value.idleClosed) == s.record.value)
  }

  /** Which times the file lacks. */
  predicate Tracked(s: State, times: Times) {
    && Agrees(s)
    && (s.record.Some? && !Behind(s) ==> times.memory == times.file)
    && (Behind(s) && FileNames(s, s.activation) ==> |times.file| < |times.memory|)
    && (s.record.Some? ==> times.memory != [])
    && (s.file.Saved? ==> times.file != [])
  }

  // ---------------------------------------------------------------- one observation

  lemma LargestGrows(times: seq<int>, time: int)
    requires times != []
    ensures Largest(times + [time]) == Max(Largest(times), time)
  {
    assert (times + [time])[..|times|] == times;
  }

  lemma LoadKeepsDates(s: State, reading: Reading, times: Times)
    requires Dated(s, times) && Tracked(s, times)
    ensures Dated(AfterLoad(s, reading).0, LoadTimes(s, reading, times))
  {
  }

  lemma ObserveKeepsDates(s: State, reading: Reading, accepted: bool, times: Times)
    requires Dated(s, times) && Tracked(s, times)
    ensures Dated(AfterObserve(s, reading, accepted).0, ObserveTimes(s, reading, accepted, times))
  {
    if !s.failed && s.activation != "" {
      LoadKeepsDates(s, reading, times);
      var begun := LoadTimes(s, reading, times);
      if AfterLoad(s, reading).1 {
        hide Largest;
        LargestGrows(begun.memory, reading.observedAt.Floor);
        assert begun.memory + [] == begun.memory;
      }
    }
  }

  lemma ObserveKeepsTrack(s: State, reading: Reading, accepted: bool, times: Times)
    requires Tracked(s, times)
    ensures Tracked(AfterObserve(s, reading, accepted).0, ObserveTimes(s, reading, accepted, times))
  {
    ObserveKeepsAgreement(s, reading, accepted);
  }

  /** An observation notes its times in the record that is in force. */
  lemma ObserveNotes(s: State, reading: Reading, accepted: bool, times: Times)
    requires Tracked(s, times)
    ensures Standing(AfterObserve(s, reading, accepted).0, ObserveTimes(s, reading, accepted, times)) ==
      Standing(s, times) + NotedBy(s, reading, accepted)
  {
    ObserveKeepsAgreement(s, reading, accepted);
  }

  // ---------------------------------------------------------------- one event

  /** The state behind the observations of an event, before an idle latch is written. */
  function Observed(s: State, event: Event): State {
    if !Observes(s, event) then
      s
    else
      var t := AfterObserve(s, event.first, false).0;
      if Second(s, event).None? then t else AfterObserve(t, Second(s, event).value, true).0
  }

  /** Writing the latch changes no time. */
  predicate SameButLatch(s: State, t: State) {
    && t.activation == s.activation
    && (s.failed ==> t == s)
    && (t.record.Some? <==> s.record.Some?)
    && (t.record.Some? ==> t.record.value == s.record.value.(idleClosed := t.record.value.idleClosed))
    && (t.file == s.file || (s.record.Some? && s.file == Saved(s.record.value) && t.file == Saved(t.record.value)))
  }

  lemma ServeObserves(s: State, event: Event)
    requires Agrees(s) && !event.Restart?
    ensures SameButLatch(Observed(s, event), Serve(s, event).0)
  {
    hide AfterObserve;
    if Observes(s, event) {
      ObserveKeepsAgreement(s, event.first, false);
    }
  }

  lemma LatchKeepsTimes(s: State, t: State, times: Times)
    requires Tracked(s, times) && SameButLatch(s, t) && Agrees(t)
    ensures Tracked(t, times) && (Dated(s, times) ==> Dated(t, times)) && Standing(t, times) == Standing(s, times)
  {
  }

  lemma ObservedTimes(s: State, event: Event, times: Times)
    requires Tracked(s, times) && !event.Restart?
    ensures var t, after := Observed(s, event), ServeTimes(s, event, times);
      && Tracked(t, after) && (Dated(s, times) ==> Dated(t, after))
      && Standing(t, after) == Standing(s, times) + NotedIn(s, event)
  {
    hide AfterObserve, ObserveTimes, NotedBy, Second, Tracked, Dated, Standing;
    if Observes(s, event) {
      FirstTimes(s, event.first, false, times);
      if Second(s, event).Some? {
        var t := AfterObserve(s, event.first, false).0;
        FirstTimes(t, Second(s, event).value, true, ObserveTimes(s, event.first, false, times));
      }
    }
  }

  lemma FirstTimes(s: State, reading: Reading, accepted: bool, times: Times)
    requires Tracked(s, times)
    ensures var t, after := AfterObserve(s, reading, accepted).0, ObserveTimes(s, reading, accepted, times);
      && Tracked(t, after) && (Dated(s, times) ==> Dated(t, after))
      && Standing(t, after) == Standing(s, times) + NotedBy(s, reading, accepted)
  {
    ObserveKeepsTrack(s, reading, accepted, times);
    ObserveNotes(s, reading, accepted, times);
    if Dated(s, times) {
      ObserveKeepsDates(s, reading, accepted, times);
    }
  }

  /** A request notes its times in the record in force; only a restart can lose any. */
  lemma ServeKeepsTimes(s: State, event: Event, times: Times)
    requires Tracked(s, times)
    ensures var t, after := Serve(s, event).0, ServeTimes(s, event, times);
      && Tracked(t, after) && (Dated(s, times) ==> Dated(t, after))
      && (!event.Restart? ==> Standing(t, after) == Standing(s, times) + NotedIn(s, event))
  {
    if !event.Restart? {
      ServeObserves(s, event);
      ServeKeepsAgreement(s, event);
      ObservedTimes(s, event, times);
      hide Serve, Observed, ServeTimes, Tracked, Dated, Standing, SameButLatch, NotedIn, Agrees;
      LatchKeepsTimes(Observed(s, event), Serve(s, event).0, ServeTimes(s, event, times));
    }
  }

  /** A restart of the same activation loses times exactly when the file is behind. */
  lemma RestartLosesIff(s: State, times: Times)
    requires Tracked(s, times)
    ensures var t, after := Started(s.file, s.activation), ServeTimes(s, Restart(s.activation), times);
      && (Standing(t, after) == Standing(s, times) <==> !Behind(s))
      && (Behind(s) ==> |Standing(t, after)| < |Standing(s, times)|)
  {
  }

  // ---------------------------------------------------------------- runs of the clock

  /** Every restart finds a file that has taken in what memory has noted. */
  predicate LosesNothing(s: State, events: seq<Event>)
    decreases |events|
  {
    events == [] || (
      !(events[0].Restart? && Behind(s)) &&
      LosesNothing(Serve(s, events[0]).0, events[1..]))
  }

  /** Over every run of requests, restarts, other activations and failed saves, the record is the
      latest of the times that survive in it. */
  lemma {:induction false} LastActivityIsLatest(s: State, events: seq<Event>, times: Times)
    requires Tracked(s, times) && Dated(s, times)
    ensures Tracked(After(s, events), TimesAfter(s, events, times))
    ensures Dated(After(s, events), TimesAfter(s, events, times))
    decreases |events|
  {
    hide Serve, ServeTimes, Tracked, Dated;
    if events != [] {
      ServeKeepsTimes(s, events[0], times);
      LastActivityIsLatest(Serve(s, events[0]).0, events[1..], ServeTimes(s, events[0], times));
    }
  }

  /** While one activation is served, the surviving times are all that were noted exactly if no
      restart came upon a file that was behind; the condition is decided before each restart. */
  lemma {:induction false} TimesSurviveIff(s: State, events: seq<Event>, times: Times)
    requires Tracked(s, times) && OneActivation(s, events)
    ensures var kept := Standing(After(s, events), TimesAfter(s, events, times));
      var all := Standing(s, times) + AllNoted(s, events);
      && |kept| <= |all|
      && (kept == all <==> LosesNothing(s, events))
      && (|kept| == |all| <==> LosesNothing(s, events))
    decreases |events|
  {
    if events == [] {
      assert Standing(s, times) + [] == Standing(s, times);
    } else {
      var t, after := Serve(s, events[0]).0, ServeTimes(s, events[0], times);
      ServeKeepsTimes(s, events[0], times);
      OneActivationNext(s, events);
      if events[0].Restart? {
        RestartTimes(s, events, times);
      }
      hide Serve, ServeTimes, Tracked, Standing, NotedIn, OneActivation, Behind;
      TimesSurviveIff(t, events[1..], after);
      Regroup(Standing(s, times), NotedIn(s, events[0]), AllNoted(t, events[1..]));
    }
  }

  lemma RestartTimes(s: State, events: seq<Event>, times: Times)
    requires Tracked(s, times) && OneActivation(s, events) && events != [] && events[0].Restart?
    ensures var t, after := Serve(s, events[0]).0, ServeTimes(s, events[0], times);
      && NotedIn(s, events[0]) == []
      && (Standing(t, after) == Standing(s, times) <==> !Behind(s))
      && (Behind(s) ==> |Standing(t, after)| < |Standing(s, times)|)
  {
    RestartLosesIff(s, times);
    assert events[0] == Restart(s.activation);
  }

  lemma Regroup(a: seq<int>, b: seq<int>, c: seq<int>)
    ensures a + (b + c) == (a + b) + c && |a + (b + c)| == |a| + |b| + |c|
    ensures a + [] == a
  {
  }

  // ---------------------------------------------------------------- when the latch goes down

  /** The latch of the served activation is still up, in memory and in a file of its own. */
  predicate Open(s: State) {
    && (s.record.Some? ==> !s.record.value.idleClosed)
    && (FileNames(s, s.activation) ==> !s.file.evidence.idleClosed)
  }

  lemma {:induction false} LargestBounds(times: seq<int>)
    requires times != []
    ensures forall i :: 0 <= i < |times| ==> times[i] <= Largest(times)
    ensures Largest(times) in times
  {
    if |times| > 1 {
      LargestBounds(times[..|times| - 1]);
    }
  }

  lemma ObserveKeepsOpen(s: State, reading: Reading, accepted: bool)
    requires Open(s)
    ensures AfterObserve(s, reading, accepted).1.Some? ==> !AfterObserve(s, reading, accepted).1.value.idleClosed
  {
  }

  /** An idle request that puts the latch down has seen an empty queue, and its clock is at least
      the timeout past every time that stands. */
  lemma IdleClosesLate(s: State, event: Event, times: Times)
    requires Tracked(s, times) && Dated(s, times) && Open(s) && event.Idle?
    requires var evidence := Serve(s, event).1.evidence; evidence.Some? && evidence.value.idleClosed
    ensures !event.first.busy && 1 <= event.seconds <= 86400
    ensures var standing := Standing(Serve(s, event).0, ServeTimes(s, event, times));
      forall i :: 0 <= i < |standing| ==> event.clock - standing[i] as real >= event.seconds as real
  {
    var evidence := Serve(s, event).1.evidence.value;
    ServeKeepsTimes(s, event, times);
    ObserveKeepsOpen(s, event.first, false);
    IdleEvidence(s, event);
    var t, after := Serve(s, event).0, ServeTimes(s, event, times);
    hide Serve, ServeTimes, AfterObserve;
    LargestBounds(after.memory);
  }

  lemma IdleEvidence(s: State, event: Event)
    requires Agrees(s) && Open(s) && event.Idle? && Serve(s, event).1.evidence.Some?
    requires Serve(s, event).1.evidence.value.idleClosed
    ensures var evidence := Serve(s, event).1.evidence.value;
      && Serve(s, event).0.record == Some(evidence)
      && evidence.busy == event.first.busy == false
      && 1 <= event.seconds <= 86400
      && event.clock - evidence.lastActivityAt as real >= event.seconds as real
  {
    ObserveKeepsOpen(s, event.first, false);
    ObserveReports(s, event.first, false);
    hide AfterObserve;
  }

  lemma ObserveReports(s: State, reading: Reading, accepted: bool)
    ensures var (t, evidence) := AfterObserve(s, reading, accepted);
      evidence.Some? ==> t.record == evidence && evidence.value.busy == reading.busy
  {
  }

  /** The same for every idle request of every run: of one activation, and of all that its record
      noted, when the run loses nothing. */
  lemma ClosedOnlyWhenIdle(s: State, events: seq<Event>, event: Event, times: Times)
    requires Tracked(s, times) && Dated(s, times)
    requires event.Idle? && Open(After(s, events))
    requires var evidence := Serve(After(s, events), event).1.evidence; evidence.Some? && evidence.value.idleClosed
    ensures !event.first.busy && 1 <= event.seconds <= 86400
    ensures var standing := Standing(Serve(After(s, events), event).0,
        ServeTimes(After(s, events), event, TimesAfter(s, events, times)));
      forall i :: 0 <= i < |standing| ==> event.clock - standing[i] as real >= event.seconds as real
    ensures OneActivation(s, events) && LosesNothing(s, events) ==>
      var noted := Standing(s, times) + AllNoted(s, events) + NotedIn(After(s, events), event);
      forall i :: 0 <= i < |noted| ==> event.clock - noted[i] as real >= event.seconds as real
  {
    LastActivityIsLatest(s, events, times);
    var t, now := After(s, events), TimesAfter(s, events, times);
    hide Serve, ServeTimes, Tracked, Dated, Open, NotedIn, Standing, AllNoted, After, TimesAfter;
    IdleClosesLate(t, event, now);
    if OneActivation(s, events) && LosesNothing(s, events) {
      TimesSurviveIff(s, events, times);
      ServeKeepsTimes(t, event, now);
    }
  }

  /** The times of a file that is found: its own one. */
  function FileTimes(file: File): Times {
    Times([], if file.Saved? then [file.evidence.lastActivityAt] else [])
  }

  /** Any process in front of any file can be followed. */
  lemma StartedIsTracked(file: File, activation: string)
    ensures Tracked(Started(file, activation), FileTimes(file)) && Dated(Started(file, activation), FileTimes(file))
  {
  }

  lemma BehindLoses(s: State, events: seq<Event>)
    requires events != []
    requires (events[0].Restart? && Behind(s)) || !LosesNothing(Serve(s, events[0]).0, events[1..])
    ensures !LosesNothing(s, events)
  {
  }

  /** The activity file of `activation` with the time `at`, and a fresh process in front of it. */
  function Resumed(activation: string, at: int): State {
    Started(Saved(Evidence(activation, at, false, false)), activation)
  }

  /** A time is lost: the save of an admitted prompt fails before the replacement, the process is
      restarted, and one second later the gate closes as idle for ten minutes. */
  lemma LostTimeClosesEarly(activation: string)
    requires activation != ""
    ensures var quiet := Reading(0.0, 1000.0, false, Durable, Durable);
      var lost := quiet.(change := FailedBefore);
      var s := Resumed(activation, 0);
      var prompt := Mutate(quiet, lost, true, Managed, Managed, true, true);
      var events := [prompt, Restart(activation)];
      var idle := Idle(quiet, activation, 600, 1001.0, Durable);
      && Serve(s, prompt).1.admitted
      && AllNoted(s, events) == [1000]
      && !LosesNothing(s, events)
      && Serve(After(s, events), idle).1.evidence == Some(Evidence(activation, 0, false, true))
  {
    var quiet := Reading(0.0, 1000.0, false, Durable, Durable);
    var lost := quiet.(change := FailedBefore);
    var s := Resumed(activation, 0);
    var prompt := Mutate(quiet, lost, true, Managed, Managed, true, true);
    var restart := Restart(activation);
    var t := State(s.file, activation, Some(Evidence(activation, 1000, false, false)), true);
    assert AfterObserve(s, quiet, false).0 == s.(record := Some(s.file.evidence));
    assert Serve(s, prompt) == (t, Response(true, None));
    assert NotedIn(s, prompt) == [1000];
    assert Serve(t, restart).0 == s && NotedIn(t, restart) == [];
    hide AfterObserve, NotedIn;
    var events := [prompt, restart];
    var rest := events[1..];
    assert rest[0] == restart && rest[1..] == [];
    assert Behind(t) by {
      assert t.file.evidence.(idleClosed := false).lastActivityAt != t.record.value.lastActivityAt;
    }
    assert After(t, rest) == s && AllNoted(t, rest) == [];
    BehindLoses(t, rest);
    BehindLoses(s, events);
    assert After(s, events) == s;
  }

  // ---------------------------------------------------------------- who is let in

  /** The evidence that a request is decided on, if it gets any. */
  function Evident(s: State, event: Event): Option<Evidence>
    requires !event.Restart?
  {
    AfterObserve(s, event.first, false).1
  }

  /** A mutation is let through exactly if it is authentic, the gate is open, and it has the access
      that the open gate is for. */
  lemma MutationAdmittedIff(s: State, event: Event)
    requires event.Mutate?
    ensures Serve(s, event).1.admitted <==>
      && Evident(s, event).Some? && !Evident(s, event).value.idleClosed
      && event.authentic && event.mode != Closed && event.access == event.mode
  {
    hide AfterObserve;
  }

  /** A job is admitted exactly if the gate is open in managed mode for the activation it names, and its
      own arrival has been put on record. */
  lemma JobAdmittedIff(s: State, event: Event)
    requires event.AdmitJob?
    ensures Serve(s, event).1.admitted <==>
      && Evident(s, event).Some? && !Evident(s, event).value.idleClosed
      && event.mode == Managed && event.activation == s.activation
      && AfterObserve(AfterObserve(s, event.first, false).0, event.second, true).1.Some?
    ensures Serve(s, event).1.admitted ==>
      var record := Serve(s, event).0.record;
      record.Some? && record.value.lastActivityAt >= event.second.observedAt.Floor
  {
    var t := AfterObserve(s, event.first, false).0;
    AcceptedIsNoted(t, event.second);
    hide AfterObserve;
  }

  lemma AcceptedIsNoted(s: State, reading: Reading)
    ensures var (t, evidence) := AfterObserve(s, reading, true);
      evidence.Some? ==> t.record == evidence && evidence.value.lastActivityAt >= reading.observedAt.Floor
  {
  }

  /** Control requests and restarts let nothing through. */
  lemma OthersAdmitNothing(s: State, event: Event)
    requires event.Restart? || event.Status? || event.Idle?
    ensures !Serve(s, event).1.admitted
  {
    hide AfterObserve;
  }

  /** An observation fails only for a process that cannot keep its record. */
  lemma ObservedIff(s: State, reading: Reading, accepted: bool)
    requires Agrees(s)
    ensures AfterObserve(s, reading, accepted).1.Some? <==>
      && !s.failed && s.activation != "" && !(s.record.None? && s.file.Unreadable?)
      && !AfterObserve(s, reading, accepted).0.failed
  {
  }

  /** An idle request closes exactly a gate that was closed already, or whose queue is empty while the
      timeout has passed since its last activity, with a timeout inside the limits. */
  lemma IdleClosesIff(s: State, event: Event)
    requires event.Idle? && event.fate == Durable && Evident(s, event).Some?
    requires 1 <= event.seconds <= 86400 && event.activation == s.activation
    ensures var before, after := Evident(s, event).value, Serve(s, event).1.evidence;
      && after.Some? && Serve(s, event).0.record == after
      && (after.value.idleClosed <==>
          before.idleClosed || (!before.busy && event.clock - before.lastActivityAt as real >= event.seconds as real))
      && after.value == before.(idleClosed := after.value.idleClosed)
  {
    ObserveReports(s, event.first, false);
    hide AfterObserve;
  }

  /** A request with another timeout or for another activation changes nothing and is told nothing. */
  lemma IdleOutsideLimits(s: State, event: Event)
    requires event.Idle? && (event.seconds < 1 || event.seconds > 86400 || event.activation != s.activation)
    ensures Serve(s, event) == (s, Response(false, None))
  {
  }
}
