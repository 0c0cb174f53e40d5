/**
 The recorder of SDK callbacks that a shutdown attestation rests on.  It only receives
 callbacks; what it shows is related to the whole history of what it received.
 */
module SdkShutdownSignals {
  import opened Prelude

  datatype SdkState = Unknown | Ready | On | Shutdown | Off

  datatype Observation = Observation(state: SdkState, hasAccount: bool, registrationCleared: bool, hasCalls: bool,
                                     audioActive: bool)

  datatype Signals = Signals(core: int, account: int, accountBound: bool, shutdownRequested: bool,
                             registrationCleared: bool,
                             invalid: bool, coreOffObserved: bool, state: SdkState)

  /** What the recorder receives; `Begin` is the start of the shutdown by its owner. */
  datatype Signal =
    | Bind(identity: int)
    | Begin
    | Global(core: int, value: SdkState)
    | Registration(core: int, account: int, cleared: bool)

  function NewSignals(core: int): Signals { Signals(core, 0, false, false, false, false, false, Unknown) }

  predicate AcceptsBegin(s: Signals) { s.core != 0 && !s.invalid && !s.shutdownRequested && s.state.On? }

  predicate Late(v: SdkState) { v.On? || v.Shutdown? || v.Off? }

  function Feed(s: Signals, e: Signal): Signals {
    match e
    case Bind(identity) =>
      if s.shutdownRequested || s.accountBound || identity == 0 then s.(invalid := true)
          else s.(account := identity, accountBound := true)
    case Begin => if AcceptsBegin(s) then s.(registrationCleared := false, shutdownRequested := true) else s
    case Global(core, value) =>
      if core != s.core || core == 0 then s
      else s.(coreOffObserved := s.coreOffObserved || value.Off?, state := value,
              invalid := s.invalid || (s.state.Off? && !value.Off?) || (s.shutdownRequested && !Late(value)))
    case Registration(core, account, cleared) =>
      if core != s.core || account != s.account || !s.accountBound || !s.shutdownRequested || s.state.Off? then s
      else s.(registrationCleared := cleared)
  }

  function Observe(s: Signals, hasCalls: bool, audioActive: bool): Observation {
    Observation(if s.invalid || s.core == 0 then Unknown else s.state, s.accountBound, s.registrationCleared, hasCalls,
                audioActive)
  }

  /** The recorder after a history, oldest signal first. */
  function After(core: int, h: seq<Signal>): Signals
    decreases |h|
  {
    if h == [] then NewSignals(core) else Feed(After(core, h[..|h| - 1]), h[|h| - 1])
  }

  // ---------------------------------------------------------------- what an observed Off proves

  /** The core reported Off. */
  predicate OffIn(core: int, h: seq<Signal>) {
    Global(core, Off) in h
  }

  predicate BegunAt(core: int, h: seq<Signal>, b: nat)
    requires b < |h|
  {
    h[b].Begin? && AcceptsBegin(After(core, h[..b]))
  }

  predicate AnswerAt(core: int, account: int, h: seq<Signal>, k: nat)
    requires k < |h|
  {
    h[k].Registration? && h[k].core == core && h[k].account == account
  }

  /**
   Of the registration callbacks of the account after the shutdown began and before the first Off,
   the last is a clear.
   */
  predicate LastAnswerClears(core: int, account: int, h: seq<Signal>) {
    exists b: nat, k: nat ::
      && b < k < |h| && BegunAt(core, h, b)
      && AnswerAt(core, account, h, k) && h[k].cleared && !OffIn(core, h[..k])
      && forall j :: k < j < |h| && AnswerAt(core, account, h, j) ==> OffIn(core, h[..j])
  }

  predicate Begun(core: int, h: seq<Signal>) {
    exists b: nat :: b < |h| && BegunAt(core, h, b)
  }

  ghost predicate Recorded(core: int, h: seq<Signal>) {
    FlagsRecorded(core, h) && AccountRecorded(core, h) && VerdictRecorded(core, h)
  }

  lemma Prefixes(h: seq<Signal>, e: Signal)
    ensures forall i :: 0 <= i <= |h| ==> (h + [e])[..i] == h[..i]
    ensures (h + [e])[..|h|] == h
  {
  }

  lemma AfterOneMore(core: int, h: seq<Signal>, e: Signal)
    ensures After(core, h + [e]) == Feed(After(core, h), e)
    ensures forall i: nat :: i < |h| ==> (BegunAt(core, h + [e], i) <==> BegunAt(core, h, i))
    ensures BegunAt(core, h + [e], |h|) <==> e.Begin? && AcceptsBegin(After(core, h))
    ensures Begun(core, h + [e]) <==> Begun(core, h) || (e.Begin? && AcceptsBegin(After(core, h)))
    ensures OffIn(core, h + [e]) <==> OffIn(core, h) || e == Global(core, Off)
  {
    Prefixes(h, e);
    if Begun(core, h) {
      var b: nat :| b < |h| && BegunAt(core, h, b);
      assert BegunAt(core, h + [e], b);
    }
    if e.Begin? && AcceptsBegin(After(core, h)) {
      assert BegunAt(core, h + [e], |h|);
    }
  }

  /** A new answer of the account, after the beginning and before Off, decides; nothing else changes the verdict. */
  lemma VerdictAfterOneMore(core: int, account: int, h: seq<Signal>, e: Signal)
    ensures LastAnswerClears(core, account, h + [e]) <==>
      if AnswerAt(core, account, h + [e], |h|) && Begun(core, h) && !OffIn(core, h) then e.cleared
      else LastAnswerClears(core, account, h)
  {
    var h' := h + [e];
    Prefixes(h, e);
    AfterOneMore(core, h, e);
    assert forall j: nat :: j < |h| ==> h'[j] == h[j];
    if AnswerAt(core, account, h', |h|) && Begun(core, h) && !OffIn(core, h) {
      if e.cleared {
        var b: nat :| b < |h| && BegunAt(core, h, b);
        assert BegunAt(core, h', b) && AnswerAt(core, account, h', |h|) && !OffIn(core, h'[..|h|]);
      }
    } else {
      NoNewVerdict(core, account, h, e);
      OldVerdict(core, account, h, e);
    }
  }

  lemma NoNewVerdict(core: int, account: int, h: seq<Signal>, e: Signal)
    requires !(AnswerAt(core, account, h + [e], |h|) && Begun(core, h) && !OffIn(core, h))
    ensures LastAnswerClears(core, account, h + [e]) ==> LastAnswerClears(core, account, h)
  {
    var h' := h + [e];
    Prefixes(h, e);
    AfterOneMore(core, h, e);
    if LastAnswerClears(core, account, h') {
      var b: nat, k: nat :|
        && b < k < |h'| && BegunAt(core, h', b)
        && AnswerAt(core, account, h', k) && h'[k].cleared && !OffIn(core, h'[..k])
        && forall j :: k < j < |h'| && AnswerAt(core, account, h', j) ==> OffIn(core, h'[..j]);
      assert b < |h| && BegunAt(core, h, b);
      assert k < |h|;
      assert AnswerAt(core, account, h, k) && h[k].cleared && !OffIn(core, h[..k]);
      forall j | k < j < |h| && AnswerAt(core, account, h, j) ensures OffIn(core, h[..j]) {
        assert AnswerAt(core, account, h', j) && h'[..j] == h[..j];
      }
    }
  }

  lemma OldVerdict(core: int, account: int, h: seq<Signal>, e: Signal)
    requires !(AnswerAt(core, account, h + [e], |h|) && Begun(core, h) && !OffIn(core, h))
    ensures LastAnswerClears(core, account, h) ==> LastAnswerClears(core, account, h + [e])
  {
    var h' := h + [e];
    Prefixes(h, e);
    AfterOneMore(core, h, e);
    if LastAnswerClears(core, account, h) {
      var b: nat, k: nat :|
        && b < k < |h| && BegunAt(core, h, b)
        && AnswerAt(core, account, h, k) && h[k].cleared && !OffIn(core, h[..k])
        && forall j :: k < j < |h| && AnswerAt(core, account, h, j) ==> OffIn(core, h[..j]);
      assert BegunAt(core, h', b) && AnswerAt(core, account, h', k) && h'[k].cleared && !OffIn(core, h'[..k]);
      forall j | k < j < |h'| && AnswerAt(core, account, h', j) ensures OffIn(core, h'[..j]) {
        if j < |h| {
          assert AnswerAt(core, account, h, j) && h'[..j] == h[..j];
        }
      }
    }
  }

  lemma {:induction false} HistoryIsRecorded(core: int, h: seq<Signal>)
    requires core != 0
    ensures Recorded(core, h)
    decreases |h|
  {
    if h != [] {
      var p, e := h[..|h| - 1], h[|h| - 1];
      assert h == p + [e];
      HistoryIsRecorded(core, p);
      OneMoreIsRecorded(core, p, e);
    }
  }

  /** The parts of the recorder that the flags of the shutdown depend on. */
  ghost predicate FlagsRecorded(core: int, h: seq<Signal>) {
    var s := After(core, h);
    && s.core == core && s.coreOffObserved == OffIn(core, h) && (s.shutdownRequested <==> Begun(core, h))
    && (!s.invalid ==> (s.state.Off? <==> OffIn(core, h)))
  }

  /** The account: bound once, with an identity, and never another one. */
  ghost predicate AccountRecorded(core: int, h: seq<Signal>) {
    var s := After(core, h);
    !s.invalid ==>
      && (forall i :: 0 <= i < |h| && h[i].Bind? ==> s.accountBound && h[i].identity == s.account && h[i].identity != 0)
      && (s.accountBound ==> Bind(s.account) in h)
  }

  ghost predicate VerdictRecorded(core: int, h: seq<Signal>) {
    var s := After(core, h);
    !s.invalid ==> if s.accountBound then s.registrationCleared <==>
        LastAnswerClears(core, s.account, h) else !s.registrationCleared
  }

  lemma FlagsStayRecorded(core: int, h: seq<Signal>, e: Signal)
    requires core != 0 && FlagsRecorded(core, h)
    ensures FlagsRecorded(core, h + [e])
  {
    AfterOneMore(core, h, e);
  }

  lemma AccountStaysRecorded(core: int, h: seq<Signal>, e: Signal)
    requires core != 0 && AccountRecorded(core, h)
    ensures AccountRecorded(core, h + [e])
  {
    AfterOneMore(core, h, e);
  }

  lemma VerdictStaysRecorded(core: int, h: seq<Signal>, e: Signal)
    requires core != 0 && FlagsRecorded(core, h) && VerdictRecorded(core, h)
    ensures VerdictRecorded(core, h + [e])
  {
    var s, s' := After(core, h), After(core, h + [e]);
    AfterOneMore(core, h, e);
    VerdictAfterOneMore(core, s'.account, h, e);
    if e.Begin? && AcceptsBegin(s) {
      NoVerdictBeforeTheBeginning(core, s.account, h);
    }
    if !s.accountBound && s'.accountBound && !s'.invalid {
      NoVerdictBeforeTheBeginning(core, s'.account, h);
    }
  }

  lemma OneMoreIsRecorded(core: int, h: seq<Signal>, e: Signal)
    requires core != 0 && Recorded(core, h)
    ensures Recorded(core, h + [e])
  {
    FlagsStayRecorded(core, h, e);
    AccountStaysRecorded(core, h, e);
    VerdictStaysRecorded(core, h, e);
  }

  lemma NoVerdictBeforeTheBeginning(core: int, account: int, h: seq<Signal>)
    requires !Begun(core, h)
    ensures !LastAnswerClears(core, account, h)
  {
  }

  /**
   When the recorder shows Off, the core reported Off and nothing else since; one account
   at most was bound, and the registration shows as cleared exactly when its last callback
   after the shutdown began and before the first Off was a clear.
   */
  lemma OffObservationMeans(core: int, h: seq<Signal>)
    requires Observe(After(core, h), false, false).state == Off
    ensures OffIn(core, h)
    ensures forall i, j :: 0 <= i < j < |h| && h[i] == Global(core, Off) && h[j].Global? && h[j].core == core ==>
        h[j].value == Off
    ensures var o := Observe(After(core, h), false, false);
      && (o.hasAccount <==> exists a :: a != 0 && Bind(a) in h)
      && (forall a :: Bind(a) in h ==> a != 0 && (o.registrationCleared <==> LastAnswerClears(core, a, h)))
      && (!o.hasAccount ==> !o.registrationCleared)
  {
    CoreIsKept(core, h);
    HistoryIsRecorded(core, h);
    OffIsTerminal(core, h);
    forall a | Bind(a) in h ensures a == After(core, h).account && a != 0 {
      var i :| 0 <= i < |h| && h[i] == Bind(a);
    }
  }

  lemma {:induction false} CoreIsKept(core: int, h: seq<Signal>)
    ensures After(core, h).core == core
    decreases |h|
  {
    if h != [] {
      CoreIsKept(core, h[..|h| - 1]);
    }
  }

  lemma {:induction false} OffIsTerminal(core: int, h: seq<Signal>)
    requires core != 0 && !After(core, h).invalid
    ensures forall i, j :: 0 <= i < j < |h| && h[i] == Global(core, Off) && h[j].Global? && h[j].core == core ==>
        h[j].value == Off
    decreases |h|
  {
    if h != [] {
      var p := h[..|h| - 1];
      CoreIsKept(core, p);
      OffIsTerminal(core, p);
      HistoryIsRecorded(core, p);
      forall i, j | 0 <= i < j < |h| && h[i] == Global(core, Off) && h[j].Global? && h[j].core == core
        ensures h[j].value == Off {
        if j < |p| {
          assert p[i] == h[i] && p[j] == h[j];
        } else {
          assert p[i] == Global(core, Off);
        }
      }
    }
  }

  /** Once the recorder has shown Off, it shows Off or Unknown ever after. */
  lemma AfterOffOnlyOffOrUnknown(s: Signals, e: Signal)
    requires s.coreOffObserved && (s.invalid || s.state.Off?)
    ensures var s' := Feed(s, e); s'.coreOffObserved && (s'.invalid || s'.state.Off?) && s'.core == s.core
  {
  }

  // ---------------------------------------------------------------- the flags, on the history

  /** What the core reported last. */
  function ShownState(core: int, h: seq<Signal>): SdkState
    decreases |h|
  {
    if h == [] then Unknown
    else
      match h[|h| - 1]
      case Global(c, value) => if c == core && core != 0 then value else ShownState(core, h[..|h| - 1])
      case _ => ShownState(core, h[..|h| - 1])
  }

  /** An account was bound before the shutdown began. */
  predicate BoundIn(core: int, h: seq<Signal>) {
    exists j: nat :: j < |h| && BindsAt(core, h, j)
  }

  predicate BindsAt(core: int, h: seq<Signal>, j: nat)
    requires j < |h|
  {
    h[j].Bind? && h[j].identity != 0 && !Begun(core, h[..j])
  }

  /**
   A second account, none, or one after the beginning; a core that comes back from Off, or that
   shows neither On, Shutdown nor Off after the beginning.
   */
  predicate Breaks(core: int, h: seq<Signal>, i: nat)
    requires i < |h|
  {
    match h[i]
    case Bind(identity) => identity == 0 || Begun(core, h[..i]) || BoundIn(core, h[..i])
    case Global(c, value) =>
      && c == core && core != 0
      && ((ShownState(core, h[..i]) == Off && value != Off) || (Begun(core, h[..i]) && value in {Unknown, Ready}))
    case _ => false
  }

  predicate BrokenIn(core: int, h: seq<Signal>) {
    exists i: nat :: i < |h| && Breaks(core, h, i)
  }

  lemma OneMoreSignal(core: int, h: seq<Signal>, e: Signal)
    ensures BoundIn(core, h + [e]) <==> BoundIn(core, h) || (e.Bind? && e.identity != 0 && !Begun(core, h))
    ensures BrokenIn(core, h + [e]) <==> BrokenIn(core, h) || Breaks(core, h + [e], |h|)
  {
    var h' := h + [e];
    Prefixes(h, e);
    assert forall j: nat :: j < |h| ==> h'[j] == h[j] && h'[..j] == h[..j];
    forall j: nat | j < |h| ensures (BindsAt(core, h', j) <==> BindsAt(core, h, j))
        && (Breaks(core, h', j) <==> Breaks(core, h, j)) {
    }
    assert BindsAt(core, h', |h|) <==> e.Bind? && e.identity != 0 && !Begun(core, h);
    if BoundIn(core, h) {
      var j: nat :| j < |h| && BindsAt(core, h, j);
      assert BindsAt(core, h', j);
    }
    if BrokenIn(core, h) {
      var j: nat :| j < |h| && Breaks(core, h, j);
      assert Breaks(core, h', j);
    }
  }

  /** The recorder shows the last state of its core, and is invalid exactly when some signal breaks the order. */
  lemma {:induction false} FlagsMean(core: int, h: seq<Signal>)
    ensures var s := After(core, h);
      && s.core == core && s.state == ShownState(core, h) && (s.accountBound <==> BoundIn(core, h))
      && (s.shutdownRequested <==> Begun(core, h)) && (s.invalid <==> BrokenIn(core, h))
    decreases |h|
  {
    if h != [] {
      var before, e := h[..|h| - 1], h[|h| - 1];
      FlagsMean(core, before);
      assert h == before + [e];
      OneMoreSignal(core, before, e);
      AfterOneMore(core, before, e);
      assert h[..|before|] == before;
    }
  }

  /** The shutdown begins exactly at the first request while the core shows On and nothing broke the order. */
  lemma BeginContract(core: int, h: seq<Signal>, b: nat)
    requires b < |h|
    ensures BegunAt(core, h, b) <==>
      && h[b].Begin? && core != 0 && ShownState(core, h[..b]) == On && !Begun(core, h[..b]) && !BrokenIn(core, h[..b])
  {
    FlagsMean(core, h[..b]);
  }

  // ---------------------------------------------------------------- the class

  class Recorder {
    const coreIdentity: int
    var accountIdentity: int
    var accountBound: bool
    var shutdownRequested: bool
    var registrationCleared: bool
    var invalid: bool
    var coreOffObserved: bool
    var state: SdkState
    ghost var history: seq<Signal>

    function View(): Signals
      reads this
    {
      Signals(coreIdentity, accountIdentity, accountBound, shutdownRequested, registrationCleared, invalid,
              coreOffObserved, state)
    }

    ghost predicate Valid()
      reads this
    {
      View() == After(coreIdentity, history)
    }

    constructor (coreIdentity: int)
      ensures Valid() && this.coreIdentity == coreIdentity && history == [] && View() == NewSignals(coreIdentity)
    {
      this.coreIdentity := coreIdentity;
      accountIdentity, accountBound, shutdownRequested, registrationCleared := 0, false, false, false;
      invalid, coreOffObserved, state, history := false, false, Unknown, [];
    }

    method BindAccount(identity: int)
      requires Valid()
      modifies this
      ensures Valid() && history == old(history) + [Bind(identity)] && View() == Feed(old(View()), Bind(identity))
    {
      AfterOneMore(coreIdentity, history, Bind(identity));
      history := history + [Bind(identity)];
      if shutdownRequested || accountBound || identity == 0 {
        invalid := true;
        return;
      }
      accountIdentity := identity;
      accountBound := true;
    }

    method BeginShutdown() returns (r: Result<(), string>)
      requires Valid()
      modifies this
      ensures Valid() && history == old(history) + [Begin] && View() == Feed(old(View()), Begin)
      ensures r == if AcceptsBegin(old(View())) then Ok(()) else Refused("SDK_SHUTDOWN_STATE_UNPROVEN")
    {
      AfterOneMore(coreIdentity, history, Begin);
      history := history + [Begin];
      if coreIdentity == 0 || invalid || shutdownRequested || state != On {
        return Refused("SDK_SHUTDOWN_STATE_UNPROVEN");
      }
      registrationCleared := false;
      shutdownRequested := true;
      return Ok(());
    }

    method OnGlobalState(core: int, value: SdkState)
      requires Valid()
      modifies this
      ensures Valid() && history == old(history) + [Global(core, value)]
      ensures View() == Feed(old(View()), Global(core, value))
    {
      AfterOneMore(coreIdentity, history, Global(core, value));
      history := history + [Global(core, value)];
      if core != coreIdentity || core == 0 {
        return;
      }
      if value == Off {
        coreOffObserved := true;
      }
      if state == Off && value != Off {
        invalid := true;
      }
      if shutdownRequested && !Late(value) {
        invalid := true;
      }
      state := value;
    }

    method OnRegistrationState(core: int, account: int, cleared: bool)
      requires Valid()
      modifies this
      ensures Valid() && history == old(history) + [Registration(core, account, cleared)]
      ensures View() == Feed(old(View()), Registration(core, account, cleared))
    {
      AfterOneMore(coreIdentity, history, Registration(core, account, cleared));
      history := history + [Registration(core, account, cleared)];
      if core != coreIdentity || account != accountIdentity || !accountBound || !shutdownRequested {
        return;
      }
      if state == Off {
        return;
      }
      registrationCleared := cleared;
    }
  }
}
