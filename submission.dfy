/**
 * The submit button of the form controller: the single-flight flag
 * `isSubmitting`, the button's `disabled` state and label, the two delivery
 * channels (the chat bridge's `sendData`, or a POST to `/api/generate`), and
 * the timers that follow. Timers firing and the HTTP reply arriving are input
 * events; the bridge is fixed when the page loads.
 */
module Submission {
  import opened Wrappers
  import opened Calculator
  import opened Form

  const GenerateLabel := "Сгенерировать"
  const GeneratingLabel := "Генерирую..."
  const SentLabel := "Отправлено!"
  const GeneratePath := "/api/generate"

  /**
   * The chat bridge object as the page sees it: whether it offers `sendData`
   * and `close`, the user id from its unsafe init data (`None` when absent),
   * and its `initData` string ("" when absent).
   */
  datatype Bridge = Bridge(hasSendData: bool, hasClose: bool, userId: Option<int>, initData: string)

  /** What is fixed when the page loads: the bridge (if any) and the delivery mode. */
  datatype Env = Env(bridge: Option<Bridge>, useHttpApi: bool, apiBase: string)

  /** Which alert was shown; the wording of the messages is not modelled. */
  datatype Alert =
    | BridgeUnavailable
    | NoUserIdentity
    | SendFailed(message: string)
    | ApiError(error: string)
    | NetworkError(message: string)

  /** One transmission: a `sendData` call, or a POST with its JSON body fields. */
  datatype Transmission =
    | SendData(payload: Payload)
    | PostGenerate(url: string, trade: Payload, userId: int, initData: string)

  /** How the POST settles: a JSON body with `ok` and `error`, or a rejected promise. */
  datatype Reply = Answered(ok: bool, error: string) | Failed(message: string)

  /**
   * The controller's state: the toggles, the flag, the button, the marked
   * fields, every alert and transmission so far, the armed 5000 ms reset
   * timers, the requests in flight, the armed 1500 ms close timers, and
   * whether `close` was called.
   */
  datatype Session = Session(
    direction: Direction, marginMode: MarginMode,
    isSubmitting: bool, disabled: bool, buttonText: string, marked: set<Field>,
    alerts: seq<Alert>, sent: seq<Transmission>,
    resetTimers: nat, fetchesInFlight: nat, closeTimers: nat, closed: bool)

  /** The delivery mode is read once from the `data-api-base` attribute (`None` when absent). */
  function DetectMode(bridge: Option<Bridge>, dataApiBase: Option<string>): (env: Env)
    ensures env.bridge == bridge
    ensures env.useHttpApi <==> dataApiBase.Some?
    ensures env.apiBase == "" <==> dataApiBase.None? || dataApiBase.value == ""
    ensures dataApiBase.Some? ==> env.apiBase == dataApiBase.value
  {
    Env(bridge, dataApiBase.Some?, dataApiBase.GetOr(""))
  }

  function Initial(buttonText: string): Session {
    Session(Long, Cross, false, false, buttonText, {}, [], [], 0, 0, 0, false)
  }

  /** `userId` as the code tests it: `!userId` rejects a missing user and the id 0. */
  predicate HasUser(env: Env) {
    env.bridge.Some? && env.bridge.value.userId.Some? && env.bridge.value.userId.value != 0
  }

  /** `sendViaTelegram`; `thrown` is the message when `sendData` throws. */
  function AfterTelegramSend(env: Env, s: Session, p: Payload, thrown: Option<string>): Session {
    if env.bridge.None? || !env.bridge.value.hasSendData then
      s.(alerts := s.alerts + [BridgeUnavailable])
    else
      var s1 := s.(disabled := true, buttonText := SentLabel, sent := s.sent + [SendData(p)]);
      match thrown
      case None => s1
      case Some(m) => s1.(alerts := s1.alerts + [SendFailed(m)], disabled := false, buttonText := GenerateLabel)
  }

  /** `sendViaApi` up to the request being sent. */
  function AfterApiSend(env: Env, s: Session, p: Payload): Session {
    if !HasUser(env) then
      s.(alerts := s.alerts + [NoUserIdentity])
    else
      var b := env.bridge.value;
      s.(disabled := true, buttonText := GeneratingLabel,
         sent := s.sent + [PostGenerate(env.apiBase + GeneratePath, p, b.userId.value, b.initData)],
         fetchesInFlight := s.fetchesInFlight + 1)
  }

  /**
   * A click on the submit button. A disabled button dispatches no click; the
   * handler returns at once while `isSubmitting`; otherwise it runs
   * `collectPayload` on the form.
   */
  function AfterClick(env: Env, s: Session, form: FormInput, thrown: Option<string>): Session {
    if s.disabled || s.isSubmitting then s
    else AfterCollect(env, s, FailedFields(Read(form)), Validated(Read(form), s.direction, s.marginMode), thrown)
  }

  /**
   * The rest of the click handler, given what `collectPayload` marked and
   * returned: a payload sets the flag, goes to the channel of the mode and
   * arms the 5000 ms reset timer.
   */
  function AfterCollect(env: Env, s: Session, marks: set<Field>, payload: Option<Payload>, thrown: Option<string>): Session {
    var s1 := s.(marked := marks);
    match payload
    case None => s1
    case Some(p) =>
      var s2 := s1.(isSubmitting := true);
      var s3 := if env.useHttpApi then AfterApiSend(env, s2, p) else AfterTelegramSend(env, s2, p, thrown);
      s3.(resetTimers := s3.resetTimers + 1)
  }

  /** The `.then` and `.catch` handlers of the POST; nothing happens with no request in flight. */
  function AfterReply(s: Session, reply: Reply): Session {
    if s.fetchesInFlight == 0 then s
    else
      var s1 := s.(fetchesInFlight := s.fetchesInFlight - 1);
      match reply
      case Answered(ok, error) =>
        if ok then s1.(buttonText := SentLabel, closeTimers := s1.closeTimers + 1)
        else s1.(alerts := s1.alerts + [ApiError(error)], disabled := false, buttonText := GenerateLabel)
      case Failed(message) =>
        s1.(alerts := s1.alerts + [NetworkError(message)], disabled := false, buttonText := GenerateLabel)
  }

  /** The 5000 ms timer: it clears the flag and touches nothing else. */
  function AfterResetTimer(s: Session): Session {
    if s.resetTimers == 0 then s
    else s.(resetTimers := s.resetTimers - 1, isSubmitting := false)
  }

  /** The 1500 ms timer after a successful POST: it closes the view when the bridge can. */
  function AfterCloseTimer(env: Env, s: Session): Session {
    if s.closeTimers == 0 then s
    else
      s.(closeTimers := s.closeTimers - 1,
         closed := s.closed || (env.bridge.Some? && env.bridge.value.hasClose))
  }

  datatype Event =
    | Click(form: FormInput, thrown: Option<string>)
    | ReplyArrived(reply: Reply)
    | ResetTimerFired
    | CloseTimerFired
    | DirectionToggled(direction: Direction)
    | MarginModeToggled(mode: MarginMode)

  function Step(env: Env, s: Session, e: Event): Session {
    match e
    case Click(form, thrown) => AfterClick(env, s, form, thrown)
    case ReplyArrived(reply) => AfterReply(s, reply)
    case ResetTimerFired => AfterResetTimer(s)
    case CloseTimerFired => AfterCloseTimer(env, s)
    case DirectionToggled(d) => s.(direction := d)
    case MarginModeToggled(m) => s.(marginMode := m)
  }

  function Run(env: Env, s: Session, events: seq<Event>): Session
    decreases |events|
  {
    if events == [] then s else Run(env, Step(env, s, events[0]), events[1..])
  }

  /**
   * The invariant every reachable session keeps: one reset timer is armed
   * exactly while the flag is set; at most one request is in flight, only in
   * HTTP mode, and then the button is disabled and reads "Генерирую...";
   * at most one close timer is armed, and only after a successful POST.
   */
  ghost predicate Inv(env: Env, s: Session) {
    && s.resetTimers == (if s.isSubmitting then 1 else 0)
    && s.fetchesInFlight <= 1
    && (s.fetchesInFlight == 1 ==> env.useHttpApi && s.disabled && s.buttonText == GeneratingLabel)
    && s.closeTimers <= 1
    && (s.closeTimers == 1 ==>
          env.useHttpApi && s.disabled && s.fetchesInFlight == 0 && s.buttonText == SentLabel)
  }

  lemma InitialInv(env: Env, buttonText: string)
    ensures Inv(env, Initial(buttonText))
  {
  }

  lemma StepPreservesInv(env: Env, s: Session, e: Event)
    requires Inv(env, s)
    ensures Inv(env, Step(env, s, e))
  {
    match e
    case Click(form, thrown) =>
      if !s.disabled && !s.isSubmitting {
        CollectPreservesInv(env, s, FailedFields(Read(form)),
                            Validated(Read(form), s.direction, s.marginMode), thrown);
      }
    case ReplyArrived(reply) =>
    case ResetTimerFired =>
    case CloseTimerFired =>
    case DirectionToggled(d) =>
    case MarginModeToggled(m) =>
  }

  lemma CollectPreservesInv(env: Env, s: Session, marks: set<Field>, payload: Option<Payload>, thrown: Option<string>)
    requires Inv(env, s) && !s.disabled && !s.isSubmitting
    ensures Inv(env, AfterCollect(env, s, marks, payload, thrown))
  {
    assert s.fetchesInFlight == 0 && s.closeTimers == 0;
  }

  lemma {:induction false} RunPreservesInv(env: Env, s: Session, events: seq<Event>)
    requires Inv(env, s)
    ensures Inv(env, Run(env, s, events))
    decreases |events|
  {
    if events != [] {
      StepPreservesInv(env, s, events[0]);
      RunPreservesInv(env, Step(env, s, events[0]), events[1..]);
    }
  }

  /** A click while the flag is set, or on a disabled button, changes nothing at all. */
  lemma ClickGuard(env: Env, s: Session, form: FormInput, thrown: Option<string>)
    requires s.isSubmitting || s.disabled
    ensures AfterClick(env, s, form, thrown) == s
  {
  }

  /**
   * An invalid form only marks its failing fields: the flag stays clear,
   * nothing is transmitted, no timer is armed and the button is untouched.
   */
  lemma InvalidFormSendsNothing(env: Env, s: Session, form: FormInput, thrown: Option<string>)
    requires !s.disabled && !s.isSubmitting
    requires Validated(Read(form), s.direction, s.marginMode).None?
    ensures var t := AfterClick(env, s, form, thrown);
      t == s.(marked := FailedFields(Read(form))) && !t.isSubmitting && t.marked != {}
  {
  }

  /**
   * A valid form sets the flag, clears every mark, arms one reset timer and
   * makes at most one transmission, through the channel of the mode: a POST
   * in HTTP mode, `sendData` otherwise; it makes exactly one when that
   * channel is available.
   */
  lemma ValidFormSendsOnce(env: Env, s: Session, form: FormInput, thrown: Option<string>, p: Payload)
    requires !s.disabled && !s.isSubmitting
    requires Validated(Read(form), s.direction, s.marginMode) == Some(p)
    ensures var t := AfterClick(env, s, form, thrown);
      && t.isSubmitting && t.marked == {} && t.resetTimers == s.resetTimers + 1
      && (env.useHttpApi && HasUser(env) ==>
            t.sent == s.sent + [PostGenerate(env.apiBase + GeneratePath, p,
                                             env.bridge.value.userId.value, env.bridge.value.initData)])
      && (!env.useHttpApi && env.bridge.Some? && env.bridge.value.hasSendData ==>
            t.sent == s.sent + [SendData(p)])
      && (t.sent == s.sent || |t.sent| == |s.sent| + 1)
  {
    assert FailedFields(Read(form)) == {};
  }

  /**
   * A missing channel: with no bridge or no `sendData`, or in HTTP mode with
   * no user id, an alert is shown, nothing is transmitted and the button is
   * left as it was, while the flag stays set.
   */
  lemma MissingChannelLeavesButton(env: Env, s: Session, form: FormInput, thrown: Option<string>, p: Payload)
    requires !s.disabled && !s.isSubmitting
    requires Validated(Read(form), s.direction, s.marginMode) == Some(p)
    requires if env.useHttpApi then !HasUser(env) else env.bridge.None? || !env.bridge.value.hasSendData
    ensures var t := AfterClick(env, s, form, thrown);
      && t.sent == s.sent && t.disabled == s.disabled && t.buttonText == s.buttonText
      && t.alerts == s.alerts + [if env.useHttpApi then NoUserIdentity else BridgeUnavailable]
      && t.isSubmitting && t.fetchesInFlight == s.fetchesInFlight
  {
  }

  /**
   * The bridge channel: a `sendData` that returns leaves the button disabled
   * with the buttonText "Отправлено!"; one that throws shows an alert and
   * re-enables the button as "Сгенерировать", with the flag still set.
   */
  lemma TelegramOutcomes(env: Env, s: Session, form: FormInput, thrown: Option<string>, p: Payload)
    requires !s.disabled && !s.isSubmitting && !env.useHttpApi
    requires env.bridge.Some? && env.bridge.value.hasSendData
    requires Validated(Read(form), s.direction, s.marginMode) == Some(p)
    ensures var t := AfterClick(env, s, form, thrown);
      && t.isSubmitting
      && (thrown.None? ==> t.disabled && t.buttonText == SentLabel && t.alerts == s.alerts)
      && (thrown.Some? ==> !t.disabled && t.buttonText == GenerateLabel
                           && t.alerts == s.alerts + [SendFailed(thrown.value)])
  {
  }

  /**
   * The HTTP reply: `ok` keeps the button disabled, labels it "Отправлено!"
   * and arms the close timer; `ok: false` or a failed request shows an alert
   * and re-enables the button as "Сгенерировать". No reply transmits again,
   * and none touches the flag.
   */
  lemma ReplyOutcomes(env: Env, s: Session, reply: Reply)
    requires Inv(env, s) && s.fetchesInFlight == 1
    ensures var t := AfterReply(s, reply);
      && t.sent == s.sent && t.isSubmitting == s.isSubmitting && t.fetchesInFlight == 0
      && (reply.Answered? && reply.ok ==>
            t.disabled && t.buttonText == SentLabel && t.closeTimers == 1 && t.alerts == s.alerts)
      && (reply.Answered? && !reply.ok ==>
            !t.disabled && t.buttonText == GenerateLabel && t.alerts == s.alerts + [ApiError(reply.error)])
      && (reply.Failed? ==>
            !t.disabled && t.buttonText == GenerateLabel && t.alerts == s.alerts + [NetworkError(reply.message)])
  {
  }

  /** Only the 5000 ms timer clears the flag: every other event leaves it set. */
  lemma OnlyResetTimerClearsFlag(env: Env, s: Session, e: Event)
    requires s.isSubmitting && !e.ResetTimerFired?
    ensures Step(env, s, e).isSubmitting
  {
  }

  /**
   * The reset timer clears the flag of a pending submission, and nothing
   * else: in particular it does not re-enable the button.
   */
  lemma ResetTimerOnlyClearsFlag(env: Env, s: Session)
    requires Inv(env, s) && s.isSubmitting
    ensures AfterResetTimer(s) == s.(isSubmitting := false, resetTimers := 0)
  {
  }

  /** Only a click transmits: replies, timers and toggles never send anything. */
  lemma OnlyClickTransmits(env: Env, s: Session, e: Event)
    requires !e.Click?
    ensures Step(env, s, e).sent == s.sent
  {
  }

  function ResetCount(events: seq<Event>): nat {
    if events == [] then 0 else (if events[0].ResetTimerFired? then 1 else 0) + ResetCount(events[1..])
  }

  /** A submission transmits at most once, and only when it sets the flag. */
  lemma CollectSendsAtMostOnce(env: Env, s: Session, marks: set<Field>, payload: Option<Payload>, thrown: Option<string>)
    ensures var t := AfterCollect(env, s, marks, payload, thrown);
      t.sent == s.sent || (t.isSubmitting && |t.sent| == |s.sent| + 1)
  {
  }

  /** 1 when a submission may start, 0 while the flag is set. */
  function Credit(s: Session): nat {
    if s.isSubmitting then 0 else 1
  }

  lemma StepCredit(env: Env, s: Session, e: Event)
    ensures var t := Step(env, s, e);
      |t.sent| + Credit(t) <= |s.sent| + Credit(s) + (if e.ResetTimerFired? then 1 else 0)
  {
    match e
    case Click(form, thrown) =>
      if !s.disabled && !s.isSubmitting {
        CollectSendsAtMostOnce(env, s, FailedFields(Read(form)),
                               Validated(Read(form), s.direction, s.marginMode), thrown);
      }
    case ReplyArrived(reply) =>
    case ResetTimerFired =>
    case CloseTimerFired =>
    case DirectionToggled(d) =>
    case MarginModeToggled(m) =>
  }

  /**
   * Single flight over any sequence of events: the transmissions made number
   * at most one more than the times the reset timer fired (one more only when
   * the flag was clear at the start).
   */
  lemma {:induction false} SingleFlight(env: Env, s: Session, events: seq<Event>)
    ensures |Run(env, s, events).sent| + Credit(Run(env, s, events)) <= |s.sent| + Credit(s) + ResetCount(events)
    decreases |events|
  {
    if events != [] {
      var s1 := Step(env, s, events[0]);
      StepCredit(env, s, events[0]);
      SingleFlight(env, s1, events[1..]);
    }
  }

  /**
   * While the reset timer does not fire, any sequence of events (repeated
   * clicks included, whatever the forms) transmits at most once, and not at
   * all when a submission is already pending.
   */
  lemma NoSecondSendBeforeReset(env: Env, s: Session, events: seq<Event>)
    requires ResetCount(events) == 0
    ensures |Run(env, s, events).sent| <= |s.sent| + Credit(s)
  {
    SingleFlight(env, s, events);
  }

  /**
   * A request that never settles: in HTTP mode, after a valid submission and
   * the reset timer, the flag is clear but the button stays disabled as
   * "Генерирую...", so every further click is ignored.
   */
  lemma HungRequestKeepsButtonDisabled(env: Env, s: Session, marks: set<Field>, p: Payload,
                                       thrown: Option<string>, form: FormInput, thrown2: Option<string>)
    requires Inv(env, s) && !s.disabled && !s.isSubmitting && env.useHttpApi && HasUser(env)
    ensures var t := AfterResetTimer(AfterCollect(env, s, marks, Some(p), thrown));
      && !t.isSubmitting && t.disabled && t.buttonText == GeneratingLabel && t.fetchesInFlight == 1
      && AfterClick(env, t, form, thrown2) == t
  {
    var t := AfterResetTimer(AfterCollect(env, s, marks, Some(p), thrown));
    ClickGuard(env, t, form, thrown2);
  }

  /**
   * The object the page script keeps: the bridge and mode fixed at load time,
   * and the state that its handlers and timers update.
   */
  class MiniApp {
    const bridge: Option<Bridge>
    const apiBase: string
    const useHttpApi: bool

    var direction: Direction
    var marginMode: MarginMode
    var isSubmitting: bool
    var disabled: bool
    var buttonText: string
    var marked: set<Field>
    var alerts: seq<Alert>
    var sent: seq<Transmission>
    var resetTimers: nat
    var fetchesInFlight: nat
    var closeTimers: nat
    var closed: bool

    function Environment(): Env {
      Env(bridge, useHttpApi, apiBase)
    }

    function State(): Session
      reads this
    {
      Session(direction, marginMode, isSubmitting, disabled, buttonText, marked,
              alerts, sent, resetTimers, fetchesInFlight, closeTimers, closed)
    }

    ghost predicate Valid()
      reads this
    {
      Inv(Environment(), State())
    }

    /** Page load: the mode comes from `data-api-base`; the button shows its initial buttonText. */
    constructor (bridge: Option<Bridge>, dataApiBase: Option<string>, initialText: string)
      ensures Environment() == DetectMode(bridge, dataApiBase)
      ensures State() == Initial(initialText)
      ensures Valid()
    {
      this.bridge := bridge;
      this.apiBase := if dataApiBase.Some? then dataApiBase.value else "";
      this.useHttpApi := dataApiBase.Some?;
      direction, marginMode := Long, Cross;
      isSubmitting, disabled, buttonText, marked := false, false, initialText, {};
      alerts, sent := [], [];
      resetTimers, fetchesInFlight, closeTimers, closed := 0, 0, 0, false;
    }

    method SetDirection(d: Direction)
      requires Valid()
      modifies this
      ensures Valid()
      ensures State() == Step(Environment(), old(State()), DirectionToggled(d))
    {
      direction := d;
    }

    method SetMarginMode(m: MarginMode)
      requires Valid()
      modifies this
      ensures Valid()
      ensures State() == Step(Environment(), old(State()), MarginModeToggled(m))
    {
      marginMode := m;
    }

    method SendViaTelegram(p: Payload, thrown: Option<string>)
      modifies this
      ensures State() == AfterTelegramSend(Environment(), old(State()), p, thrown)
    {
      if bridge.None? || !bridge.value.hasSendData {
        alerts := alerts + [BridgeUnavailable];
        return;
      }
      disabled := true;
      buttonText := SentLabel;
      sent := sent + [SendData(p)];
      if thrown.Some? {
        alerts := alerts + [SendFailed(thrown.value)];
        disabled := false;
        buttonText := GenerateLabel;
      }
    }

    method SendViaApi(p: Payload)
      modifies this
      ensures State() == AfterApiSend(Environment(), old(State()), p)
    {
      var userId: Option<int> := None;
      var initData := "";
      if bridge.Some? && bridge.value.userId.Some? {
        userId := bridge.value.userId;
        initData := bridge.value.initData;
      }
      if userId.None? || userId.value == 0 {
        alerts := alerts + [NoUserIdentity];
        return;
      }
      disabled := true;
      buttonText := GeneratingLabel;
      sent := sent + [PostGenerate(apiBase + GeneratePath, p, userId.value, initData)];
      fetchesInFlight := fetchesInFlight + 1;
    }

    /** The submit button is clicked; `thrown` decides whether `sendData` throws. */
    method Click(form: FormInput, thrown: Option<string>)
      requires Valid()
      modifies this
      ensures Valid()
      ensures State() == AfterClick(Environment(), old(State()), form, thrown)
    {
      if disabled || isSubmitting {
        return;
      }
      var marks, payload := CollectPayload(form, direction, marginMode);
      ghost var before := State();
      Submit(marks, payload, thrown);
      CollectPreservesInv(Environment(), before, marks, payload, thrown);
    }

    /** The click handler after `collectPayload` returned `payload` and marked `marks`. */
    method Submit(marks: set<Field>, payload: Option<Payload>, thrown: Option<string>)
      modifies this
      ensures State() == AfterCollect(Environment(), old(State()), marks, payload, thrown)
    {
      marked := marks;
      if payload.None? {
        return;
      }
      isSubmitting := true;
      if useHttpApi {
        SendViaApi(payload.value);
      } else {
        SendViaTelegram(payload.value, thrown);
      }
      resetTimers := resetTimers + 1;
    }

    /** The POST settles. */
    method OnReply(reply: Reply)
      requires Valid()
      modifies this
      ensures Valid()
      ensures State() == AfterReply(old(State()), reply)
    {
      if fetchesInFlight == 0 {
        return;
      }
      fetchesInFlight := fetchesInFlight - 1;
      match reply
      case Answered(ok, error) =>
        if ok {
          buttonText := SentLabel;
          closeTimers := closeTimers + 1;
        } else {
          alerts := alerts + [ApiError(error)];
          disabled := false;
          buttonText := GenerateLabel;
        }
      case Failed(message) =>
        alerts := alerts + [NetworkError(message)];
        disabled := false;
        buttonText := GenerateLabel;
    }

    /** The 5000 ms reset timer fires. */
    method OnResetTimer()
      requires Valid()
      modifies this
      ensures Valid()
      ensures State() == AfterResetTimer(old(State()))
    {
      if resetTimers > 0 {
        resetTimers := resetTimers - 1;
        isSubmitting := false;
      }
    }

    /** The 1500 ms close timer fires. */
    method OnCloseTimer()
      requires Valid()
      modifies this
      ensures Valid()
      ensures State() == AfterCloseTimer(Environment(), old(State()))
    {
      if closeTimers > 0 {
        closeTimers := closeTimers - 1;
        if bridge.Some? && bridge.value.hasClose {
          closed := true;
        }
      }
    }
  }
}
