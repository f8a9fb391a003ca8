/** The Android credentials "experience" screen: one step of the credentials
    menu. Opening it fetches the credential record of one experience, shows
    it (or says there is none), refuses to go on when the CLI runs
    non-interactively, asks the user what to do and turns the answer into the
    next screen, or into no screen at all. */
module AndroidCredentials {
  import opened Wrappers

  /** The shared context, reduced to what this screen reads of it: the
      `--non-interactive` flag. The Android credential client is represented
      by the reply its fetch produces, passed to `Open`. */
  datatype Context = Context(nonInteractive: bool)

  /** A JSON object as far as emptiness is concerned: its own keys and values. */
  type Record = map<string, string>

  /** The fetched credential record. Either part may be missing. */
  datatype AppCredentials = AppCredentials(
    keystore: Option<Record>,
    pushCredentials: Option<Record>)

  /** lodash `isEmpty` on an object-or-nothing: no object, or one without keys. */
  predicate IsEmpty(part: Option<Record>)
  {
    part.None? || |part.value| == 0
  }

  /** Neither a keystore nor push credentials are stored. */
  predicate NoCredentials(credentials: AppCredentials)
  {
    IsEmpty(credentials.keystore) && IsEmpty(credentials.pushCredentials)
  }

  /** The screen itself: its only state is the experience it is scoped to,
      fixed at construction. */
  datatype ExperienceView = ExperienceView(experienceName: string)

  /** The screens this one can lead to, each scoped to an experience. */
  datatype View =
    | UpdateKeystore(experienceName: string)
    | RemoveKeystore(experienceName: string)
    | UpdateFcmKey(experienceName: string)
    | DownloadKeystore(experienceName: string)

  /** One entry of a list prompt: the value handed back and the label shown. */
  datatype Choice = Choice(value: string, name: string)

  const UPDATE_KEYSTORE: string := "update-keystore"
  const REMOVE_KEYSTORE: string := "remove-keystore"
  const UPDATE_FCM_KEY: string := "update-fcm-key"
  const FETCH_KEYSTORE: string := "fetch-keystore"
  /** Still a case of the dispatch, but no longer offered by the prompt. */
  const FETCH_PUBLIC_CERT: string := "fetch-public-cert"

  const PROMPT_MESSAGE: string := "What do you want to do?"

  /** The choices of the prompt, in the order they are listed. */
  const PROMPT_CHOICES: seq<Choice> := [
    Choice(UPDATE_KEYSTORE, "Update upload Keystore"),
    Choice(REMOVE_KEYSTORE, "Remove keystore"),
    Choice(UPDATE_FCM_KEY, "Update FCM Api Key"),
    Choice(FETCH_KEYSTORE, "Download Keystore from the Expo servers")
  ]

  const NON_INTERACTIVE: string := "NON_INTERACTIVE"
  const NON_INTERACTIVE_MESSAGE: string :=
    "Start the CLI without the '--non-interactive' flag to manage keystores."

  /** Values the prompt offers, in order. */
  function OfferedValues(): (values: seq<string>)
    ensures |values| == |PROMPT_CHOICES|
    ensures forall i :: 0 <= i < |values| ==> values[i] == PROMPT_CHOICES[i].value
  {
    [UPDATE_KEYSTORE, REMOVE_KEYSTORE, UPDATE_FCM_KEY, FETCH_KEYSTORE]
  }

  /** The prompt value whose selection leads to `view`. */
  function ChoiceValue(view: View): string
  {
    match view
    case UpdateKeystore(_) => UPDATE_KEYSTORE
    case RemoveKeystore(_) => REMOVE_KEYSTORE
    case UpdateFcmKey(_) => UPDATE_FCM_KEY
    case DownloadKeystore(_) => FETCH_KEYSTORE
  }

  /** `handleAction`: the next screen for a selected value, or `None` (the
      source's `null`). The set of values that lead somewhere is exactly the
      set the prompt offers, every screen built keeps the experience name,
      and the screen's kind is the one the selected value names. */
  function HandleAction(view: ExperienceView, ctx: Context, selected: string): (next: Option<View>)
    ensures next.Some? <==> selected in OfferedValues()
    ensures next.Some? ==> next.value.experienceName == view.experienceName
    ensures next.Some? ==> ChoiceValue(next.value) == selected
  {
    if selected == UPDATE_KEYSTORE then Some(UpdateKeystore(view.experienceName))
    else if selected == REMOVE_KEYSTORE then Some(RemoveKeystore(view.experienceName))
    else if selected == UPDATE_FCM_KEY then Some(UpdateFcmKey(view.experienceName))
    else if selected == FETCH_KEYSTORE then Some(DownloadKeystore(view.experienceName))
    else if selected == FETCH_PUBLIC_CERT then None
    else None
  }

  /** The four offered values lead, in order, to the four kinds of screen. */
  lemma OfferedChoicesDispatch(view: ExperienceView, ctx: Context)
    ensures HandleAction(view, ctx, PROMPT_CHOICES[0].value) == Some(UpdateKeystore(view.experienceName))
    ensures HandleAction(view, ctx, PROMPT_CHOICES[1].value) == Some(RemoveKeystore(view.experienceName))
    ensures HandleAction(view, ctx, PROMPT_CHOICES[2].value) == Some(UpdateFcmKey(view.experienceName))
    ensures HandleAction(view, ctx, PROMPT_CHOICES[3].value) == Some(DownloadKeystore(view.experienceName))
    ensures forall i :: 0 <= i < |PROMPT_CHOICES| ==> HandleAction(view, ctx, PROMPT_CHOICES[i].value).Some?
  {
  }

  /** The public-certificate case is a silent dead end, not an error. */
  lemma PublicCertLeadsNowhere(view: ExperienceView, ctx: Context)
    ensures HandleAction(view, ctx, FETCH_PUBLIC_CERT) == None
  {
  }

  /** `ChoiceValue` and `HandleAction` are inverse: selecting the value of a
      screen scoped to this experience leads back to that very screen, and
      the reverse. */
  lemma HandleActionInvertsChoiceValue(view: ExperienceView, ctx: Context, next: View)
    ensures next.experienceName == view.experienceName
            <==> HandleAction(view, ctx, ChoiceValue(next)) == Some(next)
  {
  }

  /** The effects of `open`, in the order they happen. */
  datatype Event =
    | FetchCredentials(experienceName: string)
    | Log(message: string)
    | NewLine
    | DisplayCredentials(credentials: AppCredentials)
    | Prompt(message: string, choices: seq<Choice>)

  /** Why `open` threw: a `CommandError` of its own, or the unmodified
      rejection of an awaited call. */
  datatype Failure =
    | CommandError(code: string, message: string)
    | Propagated(cause: string)

  /** `open` either throws or resolves to the next screen (or `null`). */
  datatype Outcome = Failed(failure: Failure) | Opened(next: Option<View>)

  function NoCredentialsNotice(experienceName: string): string
  {
    "No credentials available for " + experienceName + " experience.\n"
  }

  /** What `open` prints about the fetched record: the notice when there is
      nothing to show, the record framed by blank lines when there is
      something and the screen has a name, and nothing otherwise. */
  function CredentialsReport(experienceName: string, credentials: AppCredentials): (events: seq<Event>)
    ensures NoCredentials(credentials) ==> events == [Log(NoCredentialsNotice(experienceName))]
    ensures DisplayCredentials(credentials) in events
            <==> !NoCredentials(credentials) && experienceName != ""
    ensures !NoCredentials(credentials) ==> forall e :: e in events ==> !e.Log?
    ensures !NoCredentials(credentials) && experienceName != "" ==>
      events == [NewLine, DisplayCredentials(credentials), NewLine]
    ensures !NoCredentials(credentials) && experienceName == "" ==> events == []
  {
    if NoCredentials(credentials) then [Log(NoCredentialsNotice(experienceName))]
    else if experienceName != "" then [NewLine, DisplayCredentials(credentials), NewLine]
    else []
  }

  predicate Prompted(trace: seq<Event>)
  {
    exists e :: e in trace && e.Prompt?
  }

  /** `open`: fetch, report, non-interactive guard, prompt, dispatch. The
      replies of the fetch and of the prompt are inputs; the prompt's reply is
      only awaited when the prompt is shown. */
  method Open(view: ExperienceView, ctx: Context, fetched: Reply<AppCredentials>, answer: Reply<string>)
    returns (outcome: Outcome, trace: seq<Event>)
    // the fetch always comes first, for this screen's experience
    ensures |trace| >= 1 && trace[0] == FetchCredentials(view.experienceName)
    // a failed fetch ends the step at once, with its own cause
    ensures fetched.Rejected? ==> outcome == Failed(Propagated(fetched.cause)) && trace == [trace[0]]
    // a fetched record is reported before anything else happens
    ensures fetched.Resolved? ==>
      var report := CredentialsReport(view.experienceName, fetched.value);
      |trace| >= 1 + |report| && trace[1..1 + |report|] == report
    // the guard: non-interactive mode throws NON_INTERACTIVE and never prompts
    ensures fetched.Resolved? && ctx.nonInteractive ==>
      outcome == Failed(CommandError(NON_INTERACTIVE, NON_INTERACTIVE_MESSAGE))
    ensures Prompted(trace) <==> fetched.Resolved? && !ctx.nonInteractive
    // the prompt is the last effect and offers exactly the four choices
    ensures Prompted(trace) ==> trace[|trace| - 1] == Prompt(PROMPT_MESSAGE, PROMPT_CHOICES)
    ensures fetched.Resolved? ==>
      |trace| == 1 + |CredentialsReport(view.experienceName, fetched.value)| + (if ctx.nonInteractive then 0 else 1)
    // a rejected prompt propagates; an answer is dispatched by handleAction
    ensures outcome.Opened? <==> fetched.Resolved? && !ctx.nonInteractive && answer.Resolved?
    ensures outcome.Opened? ==> outcome.next == HandleAction(view, ctx, answer.value)
    ensures fetched.Resolved? && !ctx.nonInteractive && answer.Rejected? ==>
      outcome == Failed(Propagated(answer.cause))
  {
    trace := [FetchCredentials(view.experienceName)];
    if fetched.Rejected? {
      outcome := Failed(Propagated(fetched.cause));
      return;
    }
    var credentials := fetched.value;
    var report := CredentialsReport(view.experienceName, credentials);
    trace := trace + report;
    assert !Prompted(trace);

    if ctx.nonInteractive {
      outcome := Failed(CommandError(NON_INTERACTIVE, NON_INTERACTIVE_MESSAGE));
      return;
    }

    trace := trace + [Prompt(PROMPT_MESSAGE, PROMPT_CHOICES)];
    assert trace[|trace| - 1] in trace;
    if answer.Rejected? {
      outcome := Failed(Propagated(answer.cause));
      return;
    }
    outcome := Opened(HandleAction(view, ctx, answer.value));
  }
}
