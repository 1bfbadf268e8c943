/** The session-setup logic of the live exam page: which exam is shown, how
    long it lasts, the two flags the page keeps, and which examiner it mounts. */
module LivePage {
  import opened Wrappers
  import opened Exam

  /** `searchParams.get("id") || undefined`: an absent or empty parameter
      means no id. */
  function RequestedId(param: Option<string>): (r: Option<string>)
    ensures r.Some? <==> param.Some? && param.value != ""
    ensures r.Some? ==> r.value == param.value
  {
    if param.Some? && param.value != "" then param else None
  }

  /** `examSimulators.find(exam => exam.id === id)`, as an index: the first
      exam in list order whose id matches. */
  function FindById(exams: seq<ExamSimulator>, id: string): (r: Option<nat>)
    ensures r.Some? ==> r.value < |exams| && exams[r.value].id == id
    ensures r.Some? ==> forall j :: 0 <= j < r.value ==> exams[j].id != id
    ensures r.None? ==> forall j :: 0 <= j < |exams| ==> exams[j].id != id
  {
    if |exams| == 0 then None
    else if exams[0].id == id then Some(0)
    else match FindById(exams[1..], id)
      case None => None
      case Some(k) => Some(k + 1)
  }

  /** `(id && find(...)) || examSimulators[0]`: the first exam with the
      requested id, else the first exam; `undefined` when the list is empty. */
  function SelectExam(exams: seq<ExamSimulator>, param: Option<string>): (r: Option<ExamSimulator>)
    ensures r.None? <==> |exams| == 0
    ensures RequestedId(param).Some? && FindById(exams, RequestedId(param).value).Some? ==>
      r == Some(exams[FindById(exams, RequestedId(param).value).value])
    ensures |exams| > 0 && (RequestedId(param).None? || FindById(exams, RequestedId(param).value).None?) ==>
      r == Some(exams[0])
  {
    var id := RequestedId(param);
    if id.Some? && FindById(exams, id.value).Some? then Some(exams[FindById(exams, id.value).value])
    else if |exams| > 0 then Some(exams[0])
    else None
  }

  /** The duration used when the exam has none (or zero). */
  const DefaultMinutes := 8

  /** `examSimulator?.duration || 8`. */
  function EffectiveMinutes(exam: Option<ExamSimulator>): (m: nat)
    ensures m > 0
    ensures exam.Some? && exam.value.duration != 0 ==> m == exam.value.duration
    ensures exam.None? || exam.value.duration == 0 ==> m == DefaultMinutes
  {
    if exam.Some? && exam.value.duration != 0 then exam.value.duration else DefaultMinutes
  }

  /** `minutes * 60 * 1000`. */
  function MinutesToMs(minutes: nat): (ms: nat)
    ensures ms % 60000 == 0
    ensures ms / 60000 == minutes
    ensures minutes > 0 ==> ms > 0
  {
    minutes * 60 * 1000
  }

  /** The two pieces of React state the page keeps. */
  datatype Flags = Flags(voiceStarted: bool, examIntentStarted: bool)

  /** Both flags start false. */
  const InitialFlags := Flags(false, false)

  /** `handleVoiceStart`: the examiner reports that the AI started speaking. */
  function HandleVoiceStart(s: Flags): (r: Flags)
    ensures r.voiceStarted
    ensures r.examIntentStarted == s.examIntentStarted
    ensures s.voiceStarted ==> r == s
  {
    s.(voiceStarted := true)
  }

  /** `onStartExamClicked(isButtonOn)`: the operator toggled the start button. */
  function OnStartExamClicked(s: Flags, isButtonOn: bool): (r: Flags)
    ensures r.examIntentStarted == isButtonOn
    ensures r.voiceStarted == s.voiceStarted
  {
    if isButtonOn then s.(examIntentStarted := true) else s.(examIntentStarted := false)
  }

  /** The events that reach the page's handlers. */
  datatype Event = VoiceStart | StartClicked(isButtonOn: bool)

  /** The handler an event reaches, applied to the flags. */
  function Step(s: Flags, ev: Event): (r: Flags)
    ensures r.voiceStarted == (s.voiceStarted || ev == VoiceStart)
    ensures r.examIntentStarted == if ev.StartClicked? then ev.isButtonOn else s.examIntentStarted
  {
    match ev
    case VoiceStart => HandleVoiceStart(s)
    case StartClicked(on) => OnStartExamClicked(s, on)
  }

  /** The flags after handling `events` in order. */
  function Run(s: Flags, events: seq<Event>): (r: Flags)
    ensures VoiceStart !in events ==> r.voiceStarted == s.voiceStarted
    ensures (forall i :: 0 <= i < |events| ==> !events[i].StartClicked?) ==> r.examIntentStarted == s.examIntentStarted
    decreases |events|
  {
    if |events| == 0 then s else Run(Step(s, events[0]), events[1..])
  }

  /** Handling one more event after a run. */
  lemma {:induction false} RunSnoc(s: Flags, events: seq<Event>, ev: Event)
    ensures Run(s, events + [ev]) == Step(Run(s, events), ev)
    decreases |events|
  {
    if |events| > 0 {
      assert (events + [ev])[1..] == events[1..] + [ev];
      RunSnoc(Step(s, events[0]), events[1..], ev);
    } else {
      assert [ev][1..] == [];
    }
  }

  /** `voiceStarted` never goes back to false. */
  lemma {:induction false} VoiceStartedMonotone(s: Flags, events: seq<Event>)
    requires s.voiceStarted
    ensures Run(s, events).voiceStarted
    decreases |events|
  {
    if |events| > 0 {
      VoiceStartedMonotone(Step(s, events[0]), events[1..]);
    }
  }

  /** From the initial state, `voiceStarted` holds exactly when a voice start
      has been reported. */
  lemma {:induction false} VoiceStartedIffReported(s: Flags, events: seq<Event>)
    requires !s.voiceStarted
    ensures Run(s, events).voiceStarted <==> VoiceStart in events
    decreases |events|
  {
    if |events| > 0 {
      if events[0] == VoiceStart {
        VoiceStartedMonotone(Step(s, events[0]), events[1..]);
      } else {
        VoiceStartedIffReported(Step(s, events[0]), events[1..]);
        assert VoiceStart in events <==> VoiceStart in events[1..] by {
          assert events == [events[0]] + events[1..];
        }
      }
    }
  }

  /** Reference definition: the value of the last toggle, or `current` if none. */
  function LastToggle(events: seq<Event>, current: bool): (r: bool)
  {
    if |events| == 0 then current
    else match events[|events| - 1]
      case StartClicked(on) => on
      case VoiceStart => LastToggle(events[..|events| - 1], current)
  }

  /** `examIntentStarted` is the last toggle of the start button. */
  lemma {:induction false} IntentFollowsLastToggle(s: Flags, events: seq<Event>)
    ensures Run(s, events).examIntentStarted == LastToggle(events, s.examIntentStarted)
  {
    if |events| > 0 {
      var init := events[..|events| - 1];
      assert events == init + [events[|events| - 1]];
      RunSnoc(s, init, events[|events| - 1]);
      IntentFollowsLastToggle(s, init);
    }
  }

  /** Properties handed to `CountdownTimer`. */
  datatype CountdownProps = CountdownProps(totalMs: nat, autoStart: bool, startTrigger: bool)

  /** The examiner component the page mounts. Both variants receive the exam
      and `handleVoiceStart`; only the standard one receives the intent flag. */
  datatype Examiner =
    | GithubRepoExaminer(exam: ExamSimulator)
    | StandardExaminer(exam: ExamSimulator, examIntentStarted: bool)

  const GithubRepoType := "Github Repo"

  /** `examType === "Github Repo" ? <GithubRepo/> : <AIExaminer/>`. */
  function ChooseExaminer(exam: ExamSimulator, s: Flags): (r: Examiner)
    ensures r.exam == exam
    ensures r.GithubRepoExaminer? <==> exam.examType == GithubRepoType
    ensures r.StandardExaminer? ==> r.examIntentStarted == s.examIntentStarted
  {
    if exam.examType == GithubRepoType then GithubRepoExaminer(exam)
    else StandardExaminer(exam, s.examIntentStarted)
  }

  /** What the page renders that depends on the logic above. */
  datatype PageView = PageView(heading: string, countdown: CountdownProps, examiner: Examiner)

  /** Rendering reads `examSimulator.title`, which throws when no exam exists. */
  datatype PageError = NoExamConfigured

  /** The page for the given exam list, `id` query parameter and flags. */
  function RenderPage(exams: seq<ExamSimulator>, param: Option<string>, s: Flags): (r: Result<PageView, PageError>)
    ensures r.Failure? <==> |exams| == 0
    ensures r.Success? ==>
      var exam := SelectExam(exams, param).value;
      && r.value.heading == "Welcome to your " + exam.title + " exam"
      && r.value.countdown == CountdownProps(MinutesToMs(EffectiveMinutes(Some(exam))), false, s.voiceStarted)
      && r.value.examiner == ChooseExaminer(exam, s)
  {
    var selected := SelectExam(exams, param);
    if selected.None? then Failure(NoExamConfigured)
    else
      var exam := selected.value;
      var totalMs := MinutesToMs(EffectiveMinutes(selected));
      Success(PageView("Welcome to your " + exam.title + " exam",
                       CountdownProps(totalMs, false, s.voiceStarted),
                       ChooseExaminer(exam, s)))
  }

  /** The countdown cannot start before a voice start: from the initial flags,
      any sequence of events without one leaves its start trigger false. */
  lemma CountdownWaitsForVoice(exams: seq<ExamSimulator>, param: Option<string>, events: seq<Event>)
    requires |exams| > 0
    requires VoiceStart !in events
    ensures RenderPage(exams, param, Run(InitialFlags, events)).Success?
    ensures RenderPage(exams, param, Run(InitialFlags, events)).value.countdown.startTrigger == false
    ensures RenderPage(exams, param, Run(InitialFlags, events)).value.countdown.totalMs > 0
  {
  }
}
