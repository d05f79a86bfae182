/**
 * The distribution logic of `RedditService`: which channels take part, how a
 * submission is classified and routed to a renderer, the plain-text fallback
 * when a renderer fails, and the diagnostic embed a channel receives when its
 * feed cannot be processed.
 *
 * The module has two layers. Functions describe, for given inputs, what a
 * channel receives; the class `RedditService` holds the step-by-step methods,
 * each proved to append exactly what the functions describe to the channel's
 * log. Lemmas state the distribution guarantees about the functions.
 */
module RedditService {
  import opened Wrappers
  import opened JsString
  import opened Submission
  import opened Chat
  import ContentText

  /** What the feed platform answers when asked for a topic's top submissions. */
  datatype FetchResult = FetchFailed | Fetched(items: seq<Submission>)

  /**
   * Where a renderer call happens within `sendSubmissionToChannel`: the call
   * of the registered renderer, the plain-text call made inside the `try`
   * after an `Error` result, or the plain-text call made in the `catch`.
   */
  datatype Step = Action | TextAfterError | TextInCatch

  /** One renderer call's place: the channel, the item's position in the fetched list, and the step. */
  datatype CallSite = CallSite(channel: Channel, position: nat, step: Step)

  /**
   * The code this model does not see, as total functions: the image-URL
   * heuristic, the feed query for a channel's topic, and the outcome of an
   * unseen renderer. A renderer receives the channel and the item, and it
   * may end differently at each call site, so a second plain-text call on
   * an item may end differently from the first.
   */
  datatype Collaborators = Collaborators(
    isUrlAnImage: string -> bool,
    getTop: (Channel, string) -> FetchResult,
    render: (CallSite, Renderer, Submission) -> Outcome)

  // ---------------------------------------------------------------------------
  // Classification

  /** The rule of one content type taken on its own, without precedence. */
  predicate Matches(t: SubmissionType, s: Submission, isUrlAnImage: string -> bool) {
    match t
    case Gallery => Includes(s.url, "gallery")
    case Image => isUrlAnImage(s.url)
    case Video => s.isVideo
    case Selftext => s.selftext != ""
    case Unknown => true
  }

  /**
   * The content type of a submission: the first type, in the order Gallery,
   * Image, Video, Selftext, Unknown, whose rule the submission matches.
   */
  function GetSubmissionType(s: Submission, isUrlAnImage: string -> bool): (t: SubmissionType)
    ensures Matches(t, s, isUrlAnImage)
    ensures forall u: SubmissionType :: u.Rank() < t.Rank() ==> !Matches(u, s, isUrlAnImage)
  {
    if Includes(s.url, "gallery") then Gallery
    else if isUrlAnImage(s.url) then Image
    else if s.isVideo then Video
    else if s.selftext != "" then Selftext
    else Unknown
  }

  /**
   * First match wins: a type is the classification exactly when its rule
   * matches and no higher-ranked rule does. In particular a URL containing
   * "gallery" decides the type whatever the other fields say, and Selftext is
   * chosen exactly when nothing earlier matched and the text is not empty.
   */
  lemma ClassifierPrecedence(s: Submission, isUrlAnImage: string -> bool, t: SubmissionType)
    ensures GetSubmissionType(s, isUrlAnImage) == t <==>
      Matches(t, s, isUrlAnImage) && forall u: SubmissionType :: u.Rank() < t.Rank() ==> !Matches(u, s, isUrlAnImage)
    ensures Includes(s.url, "gallery") ==> GetSubmissionType(s, isUrlAnImage) == Gallery
    ensures GetSubmissionType(s, isUrlAnImage) == Selftext <==>
      !Includes(s.url, "gallery") && !isUrlAnImage(s.url) && !s.isVideo && s.selftext != ""
    ensures GetSubmissionType(s, isUrlAnImage) == Unknown <==>
      !Includes(s.url, "gallery") && !isUrlAnImage(s.url) && !s.isVideo && s.selftext == ""
  {
    var c := GetSubmissionType(s, isUrlAnImage);
    if Matches(t, s, isUrlAnImage) && forall u: SubmissionType :: u.Rank() < t.Rank() ==> !Matches(u, s, isUrlAnImage) {
      assert !(c.Rank() < t.Rank());
      assert !(t.Rank() < c.Rank());
    }
  }

  // ---------------------------------------------------------------------------
  // Renderer registry

  /** The content type a renderer is registered for; the plain-text renderer serves Unknown. */
  function Handles(r: Renderer): SubmissionType {
    match r
    case AsImage => Image
    case AsVideo => Video
    case AsGallery => Gallery
    case AsContentText => Selftext
    case AsText => Unknown
  }

  /** The renderer registered for each content type: every type has one, and it is the one registered for that type. */
  function GetSubmissionActionMap(t: SubmissionType): (r: Renderer)
    ensures Handles(r) == t
  {
    match t
    case Image => AsImage
    case Video => AsVideo
    case Gallery => AsGallery
    case Selftext => AsContentText
    case Unknown => AsText
  }


  // ---------------------------------------------------------------------------
  // Channel eligibility

  /**
   * A channel takes part when its topic is present, not empty, and has no
   * space once trailing white space is cut: every space in the topic belongs
   * to its trailing white space.
   */
  function IsEligible(topic: Option<string>): (eligible: bool)
    ensures eligible <==> (
      && topic.Some?
      && topic.value != ""
      && forall i :: 0 <= i < |topic.value| && topic.value[i] == ' ' ==>
           forall j :: i <= j < |topic.value| ==> IsWhiteSpace(topic.value[j]))
  {
    match topic
    case None => false
    case Some(t) =>
      NoSpaceAfterTrimEnd(t);
      t != "" && ' ' !in TrimEnd(t)
  }

  /**
   * "cats" and "cats  " take part, "cats dogs", "" and a missing topic do not.
   * Only the space character is looked for, so a tab inside the topic passes,
   * and a topic made of white space only passes too.
   */
  lemma EligibilityExamples()
    ensures IsEligible(Some("cats")) && IsEligible(Some("cats  "))
    ensures !IsEligible(Some("cats dogs")) && !IsEligible(Some("")) && !IsEligible(None)
    ensures IsEligible(Some("cats\tdogs")) && IsEligible(Some("   "))
  {
    assert "cats dogs"[4] == ' ' && !IsWhiteSpace("cats dogs"[5]);
  }

  // ---------------------------------------------------------------------------
  // One renderer call, one submission

  /** A renderer call as the model records it: who was called on which item, how the call ended, what it posted. */
  datatype Call = Call(renderer: Renderer, item: Submission, outcome: Outcome, sent: Option<Message>)

  /**
   * Calls renderer `r` on `s`. `foreign` is how an unseen renderer handles
   * the item; the selftext renderer is part of the model, so for it `foreign`
   * is not consulted. A call posts a message exactly when it succeeds: an
   * unseen renderer posts the item, the selftext renderer posts its
   * markdown, and a refused selftext item surfaces as a thrown error.
   */
  function Invoke(r: Renderer, s: Submission, foreign: Outcome): (c: Call)
    ensures c.renderer == r && c.item == s
    ensures c.sent.Some? <==> c.outcome == Success
    ensures c.sent.Some? ==> !c.sent.value.Diagnostic?
    ensures r != AsContentText ==> c.outcome == foreign
    ensures r != AsContentText && foreign == Success ==> c.sent == Some(Posted(r, s))
    ensures r == AsContentText ==> (c.outcome == Success <==> ContentText.SendSubmissionAsContentText(s).Ok?)
    ensures r == AsContentText && c.outcome != Success ==> c.outcome == Throw
    ensures r == AsContentText && c.outcome == Success ==>
      c.sent == Some(Markdown(ContentText.SendSubmissionAsContentText(s).value))
  {
    if r == AsContentText then
      match ContentText.SendSubmissionAsContentText(s)
      case Ok(text) => Call(r, s, Success, Some(Markdown(text)))
      case Err(_) => Call(r, s, Throw, None)
    else if foreign == Success then
      Call(r, s, Success, Some(Posted(r, s)))
    else
      Call(r, s, foreign, None)
  }

  /** The call of renderer `r` on `s` at the given step of the item at `position` in `channel`. */
  function CallAt(channel: Channel, position: nat, step: Step, r: Renderer, s: Submission, env: Collaborators): Call {
    Invoke(r, s, env.render(CallSite(channel, position, step), r, s))
  }

  /** The calls made for one submission, and whether an error escaped them. */
  datatype Dispatched = Dispatched(calls: seq<Call>, threw: bool)

  /**
   * Where control goes in `sendSubmissionToChannel` after the call at `step`
   * ended with `outcome`, or `None` when the method returns. An `Error` of the
   * registered renderer leads to the plain-text call inside the `try`; a
   * throw of either call in the `try` leads to the `catch`; the `catch` call
   * is the last one whatever its outcome.
   */
  function NextStep(step: Step, outcome: Outcome): (next: Option<Step>)
    ensures next == Some(TextAfterError) <==> step == Action && outcome == Error
    ensures next == Some(TextInCatch) <==> step != TextInCatch && outcome == Throw
    ensures next.None? <==> (step == TextInCatch || (outcome != Throw && !(step == Action && outcome == Error)))
    ensures next != Some(Action)
  {
    match step
    case Action =>
      if outcome == Error then Some(TextAfterError)
      else if outcome == Throw then Some(TextInCatch)
      else None
    case TextAfterError => if outcome == Throw then Some(TextInCatch) else None
    case TextInCatch => None
  }

  /** How many more calls can follow the call at `step`. */
  function StepsLeft(step: Step): nat {
    match step
    case Action => 2
    case TextAfterError => 1
    case TextInCatch => 0
  }

  /** The renderer called at `step`: the registered one first, the plain-text one on the fallback path. */
  function RendererAt(step: Step, s: Submission, env: Collaborators): Renderer {
    if step == Action then GetSubmissionActionMap(GetSubmissionType(s, env.isUrlAnImage)) else AsText
  }

  /**
   * The calls `sendSubmissionToChannel` makes for the item at `position` of
   * `channel`'s list from `step` on, and whether an error escapes them. Each
   * call leads to the next as `NextStep` says, and at most `StepsLeft(step)`
   * calls follow the first. Only a throw of the `catch` call escapes.
   */
  function DispatchFrom(channel: Channel, position: nat, s: Submission, env: Collaborators, step: Step): (d: Dispatched)
    ensures 1 <= |d.calls| <= StepsLeft(step) + 1
    decreases StepsLeft(step)
  {
    var c := CallAt(channel, position, step, RendererAt(step, s, env), s, env);
    match NextStep(step, c.outcome)
    case None => Dispatched([c], step == TextInCatch && c.outcome == Throw)
    case Some(next) =>
      var rest := DispatchFrom(channel, position, s, env, next);
      Dispatched([c] + rest.calls, rest.threw)
  }

  /**
   * `sendSubmissionToChannel` for the item at `position` of `channel`'s list:
   * classify and call the registered renderer, then follow the fallback path.
   * One to three calls are made, the first to the renderer registered for
   * the item's type (`FallbackCalls` says which calls follow).
   */
  function DispatchSubmission(channel: Channel, position: nat, s: Submission, env: Collaborators): (d: Dispatched)
    ensures 1 <= |d.calls| <= 3
    ensures d.calls[0].renderer == GetSubmissionActionMap(GetSubmissionType(s, env.isUrlAnImage))
  {
    DispatchFrom(channel, position, s, env, Action)
  }

  /** The calls of `DispatchSubmission` written out step by step. */
  lemma DispatchSteps(channel: Channel, position: nat, s: Submission, env: Collaborators)
    ensures var first := CallAt(channel, position, Action, RendererAt(Action, s, env), s, env);
      var fallback := CallAt(channel, position, TextAfterError, AsText, s, env);
      var last := CallAt(channel, position, TextInCatch, AsText, s, env);
      DispatchSubmission(channel, position, s, env) ==
        if first.outcome == Success then Dispatched([first], false)
        else if first.outcome == Error && fallback.outcome != Throw then Dispatched([first, fallback], false)
        else if first.outcome == Error then Dispatched([first, fallback, last], last.outcome == Throw)
        else Dispatched([first, last], last.outcome == Throw)
  {
    var first := CallAt(channel, position, Action, RendererAt(Action, s, env), s, env);
    var fallback := CallAt(channel, position, TextAfterError, AsText, s, env);
    var last := CallAt(channel, position, TextInCatch, AsText, s, env);
    var inCatch := DispatchFrom(channel, position, s, env, TextInCatch);
    assert inCatch == Dispatched([last], last.outcome == Throw);
    if first.outcome == Error {
      var inTry := DispatchFrom(channel, position, s, env, TextAfterError);
      if fallback.outcome == Throw {
        assert inTry == Dispatched([fallback] + inCatch.calls, inCatch.threw);
        assert [first] + ([fallback] + [last]) == [first, fallback, last];
      } else {
        assert inTry == Dispatched([fallback], false);
        assert [first] + [fallback] == [first, fallback];
      }
    } else if first.outcome == Throw {
      assert [first] + [last] == [first, last];
    }
  }

  /**
   * The fallback path of one item: a single call exactly when the first
   * succeeds; after a throw, exactly the `catch` call follows; after an
   * `Error`, the plain-text call in the `try` follows, and the `catch` call
   * only when that one throws. No call follows a success, and an error
   * escapes exactly when the last of two or three calls throws.
   */
  lemma FallbackCalls(channel: Channel, position: nat, s: Submission, env: Collaborators)
    ensures var d := DispatchSubmission(channel, position, s, env);
      && (forall k :: 0 <= k < |d.calls| ==> d.calls[k].item == s)
      && (forall k :: 1 <= k < |d.calls| ==> d.calls[k].renderer == AsText)
      && (|d.calls| == 1 <==> d.calls[0].outcome == Success)
      && (d.calls[0].outcome == Throw ==> |d.calls| == 2)
      && (d.calls[0].outcome == Error ==> (|d.calls| == 3 <==> d.calls[1].outcome == Throw))
      && (forall k :: 0 <= k < |d.calls| - 1 ==> d.calls[k].outcome != Success)
      && (d.threw <==> |d.calls| > 1 && d.calls[|d.calls| - 1].outcome == Throw)
  {
    DispatchSteps(channel, position, s, env);
  }

  /**
   * An item of unknown type already goes to the plain-text renderer; when
   * that call reports `Error`, the plain-text renderer is called a second time.
   */
  lemma UnknownErrorSendsTextTwice(channel: Channel, position: nat, s: Submission, env: Collaborators)
    requires GetSubmissionType(s, env.isUrlAnImage) == Unknown
    requires env.render(CallSite(channel, position, Action), AsText, s) == Error
    ensures var d := DispatchSubmission(channel, position, s, env);
      |d.calls| >= 2 && d.calls[0].renderer == AsText && d.calls[1].renderer == AsText
  {
    DispatchSteps(channel, position, s, env);
  }

  /**
   * When the registered renderer reports `Error` and the plain-text call
   * after it throws, the `catch` calls the plain-text renderer a third time;
   * the item is posted when that call succeeds, and the error escapes when it
   * throws.
   */
  lemma ThrowingFallbackIsCaught(channel: Channel, position: nat, s: Submission, env: Collaborators)
    requires GetSubmissionType(s, env.isUrlAnImage) != Selftext
    requires env.render(CallSite(channel, position, Action), GetSubmissionActionMap(GetSubmissionType(s, env.isUrlAnImage)), s) == Error
    requires env.render(CallSite(channel, position, TextAfterError), AsText, s) == Throw
    ensures var d := DispatchSubmission(channel, position, s, env);
      var caught := env.render(CallSite(channel, position, TextInCatch), AsText, s);
      && |d.calls| == 3
      && d.calls[2] == CallAt(channel, position, TextInCatch, AsText, s, env)
      && Sent(d.calls) == (if caught == Success then [Posted(AsText, s)] else [])
      && (d.threw <==> caught == Throw)
  {
    DispatchSteps(channel, position, s, env);
    var d := DispatchSubmission(channel, position, s, env);
    assert d.calls == d.calls[..2] + [d.calls[2]];
    FailedCallsPostNothing(d.calls[..2]);
    SentConcat(d.calls[..2], [d.calls[2]]);
    assert [d.calls[2]][1..] == [];
  }

  /**
   * A selftext item over the message limit makes the selftext renderer
   * throw; the `catch` still posts the item through the plain-text renderer.
   */
  lemma OversizedSelftextFallsBack(channel: Channel, position: nat, s: Submission, env: Collaborators)
    requires GetSubmissionType(s, env.isUrlAnImage) == Selftext
    requires Utf16Length(s.selftext) > ContentText.MAX_SELFTEXT_LENGTH
    requires env.render(CallSite(channel, position, TextInCatch), AsText, s) == Success
    ensures var d := DispatchSubmission(channel, position, s, env);
      && d.calls == [Call(AsContentText, s, Throw, None), Call(AsText, s, Success, Some(Posted(AsText, s)))]
      && Sent(d.calls) == [Posted(AsText, s)]
      && !d.threw
  {
    DispatchSteps(channel, position, s, env);
    var d := DispatchSubmission(channel, position, s, env);
    assert d.calls[1..] == [d.calls[1]];
  }

  // ---------------------------------------------------------------------------
  // What the calls post

  /** The messages a sequence of calls posts, in call order. */
  function Sent(calls: seq<Call>): (messages: seq<Message>)
    ensures |messages| <= |calls|
  {
    if calls == [] then [] else Posts(calls[0]) + Sent(calls[1..])
  }

  /** The message one call posts, if any. */
  function Posts(c: Call): seq<Message> {
    if c.sent.Some? then [c.sent.value] else []
  }

  /** A log that holds the posts of some calls, extended by one more call's post, holds the posts of all of them. */
  lemma SentSnoc(log: seq<Message>, calls: seq<Call>, c: Call)
    ensures log + Sent(calls + [c]) == (log + Sent(calls)) + Posts(c)
  {
    SentConcat(calls, [c]);
    assert [c][1..] == [];
  }

  lemma {:induction false} SentConcat(a: seq<Call>, b: seq<Call>)
    ensures Sent(a + b) == Sent(a) + Sent(b)
  {
    if a == [] {
      assert a + b == b;
    } else {
      var ab := a + b;
      assert ab[0] == a[0] && ab[1..] == a[1..] + b;
      assert Sent(ab) == Posts(a[0]) + Sent(a[1..] + b);
      SentConcat(a[1..], b);
      assert Sent(ab) == Posts(a[0]) + (Sent(a[1..]) + Sent(b));
      assert Sent(a) == Posts(a[0]) + Sent(a[1..]);
    }
  }

  /** Calls that all failed post nothing. */
  lemma {:induction false} FailedCallsPostNothing(calls: seq<Call>)
    requires forall k :: 0 <= k < |calls| ==> calls[k].sent.None?
    ensures Sent(calls) == []
  {
    if calls != [] {
      FailedCallsPostNothing(calls[1..]);
    }
  }

  /** Calls that post no diagnostic (renderer calls never do). */
  predicate PostsNoDiagnostic(calls: seq<Call>) {
    forall k :: 0 <= k < |calls| && calls[k].sent.Some? ==> !calls[k].sent.value.Diagnostic?
  }

  /** Number of diagnostics among some messages. */
  function DiagnosticCount(messages: seq<Message>): nat {
    if messages == [] then 0
    else (if messages[0].Diagnostic? then 1 else 0) + DiagnosticCount(messages[1..])
  }

  lemma {:induction false} DiagnosticCountConcat(a: seq<Message>, b: seq<Message>)
    ensures DiagnosticCount(a + b) == DiagnosticCount(a) + DiagnosticCount(b)
  {
    if a == [] {
      assert a + b == b;
    } else {
      assert (a + b)[1..] == a[1..] + b;
      DiagnosticCountConcat(a[1..], b);
    }
  }

  lemma {:induction false} NoDiagnosticSent(calls: seq<Call>)
    requires PostsNoDiagnostic(calls)
    ensures DiagnosticCount(Sent(calls)) == 0
  {
    if calls != [] {
      NoDiagnosticSent(calls[1..]);
      DiagnosticCountConcat(Posts(calls[0]), Sent(calls[1..]));
    }
  }

  /** In `channel`, the plain-text calls of the fallback path, in the `try` or in the `catch`, always succeed. */
  ghost predicate FallbackNeverFails(channel: Channel, env: Collaborators) {
    forall position: nat, step: Step, s: Submission :: step != Action ==>
      env.render(CallSite(channel, position, step), AsText, s) == Success
  }

  /**
   * One item posts at most one message, never a diagnostic; it posts exactly one
   * when some call on it succeeded, and in particular whenever the
   * plain-text fallback calls do not fail.
   */
  lemma AtMostOneMessagePerItem(channel: Channel, position: nat, s: Submission, env: Collaborators)
    ensures var d := DispatchSubmission(channel, position, s, env);
      && |Sent(d.calls)| <= 1
      && PostsNoDiagnostic(d.calls)
      && (|Sent(d.calls)| == 1 <==> exists k :: 0 <= k < |d.calls| && d.calls[k].outcome == Success)
      && (FallbackNeverFails(channel, env) ==> |Sent(d.calls)| == 1 && !d.threw)
  {
    FallbackCalls(channel, position, s, env);
    var d := DispatchSubmission(channel, position, s, env);
    var n := |d.calls| - 1;
    assert d.calls == d.calls[..n] + [d.calls[n]];
    FailedCallsPostNothing(d.calls[..n]);
    SentConcat(d.calls[..n], [d.calls[n]]);
    assert [d.calls[n]][1..] == [];
  }

  // ---------------------------------------------------------------------------
  // One channel

  /** The calls made for a channel's items, and whether an error cut the loop short. */
  datatype Run = Run(calls: seq<Call>, aborted: bool)

  /**
   * The `for` loop of `sendSubmissionsToChannel` over a channel's fetched
   * items, the item at index `k` being at position `k`: items are taken one
   * at a time, in order, and the loop stops after the first one that lets an
   * error escape. Each item dispatched makes one to three calls, so the loop
   * makes at most three calls per item, and at least one per item when it is
   * not cut short.
   */
  function DispatchAll(channel: Channel, items: seq<Submission>, env: Collaborators): (run: Run)
    ensures |run.calls| <= 3 * |items|
    ensures !run.aborted ==> |items| <= |run.calls|
  {
    if items == [] then Run([], false)
    else
      var n := |items| - 1;
      var before := DispatchAll(channel, items[..n], env);
      if before.aborted then before
      else
        var d := DispatchSubmission(channel, n, items[n], env);
        Run(before.calls + d.calls, d.threw)
  }

  /** The loop is cut short exactly when some item lets an error escape. */
  lemma {:induction false} AbortedIff(channel: Channel, items: seq<Submission>, env: Collaborators)
    ensures DispatchAll(channel, items, env).aborted <==>
      exists k {:trigger DispatchSubmission(channel, k, items[k], env)} ::
        0 <= k < |items| && DispatchSubmission(channel, k, items[k], env).threw
    decreases |items|
  {
    if items != [] {
      var n := |items| - 1;
      AbortedIff(channel, items[..n], env);
      AbortedStep(channel, items, env);
      if DispatchAll(channel, items[..n], env).aborted {
        var k :| 0 <= k < n && DispatchSubmission(channel, k, items[..n][k], env).threw;
        assert items[..n][k] == items[k];
        assert DispatchSubmission(channel, k, items[k], env).threw;
      } else if DispatchSubmission(channel, n, items[n], env).threw {
      } else {
        forall k | 0 <= k < |items|
          ensures !DispatchSubmission(channel, k, items[k], env).threw
        {
          if k < n {
            assert items[..n][k] == items[k];
            assert !DispatchSubmission(channel, k, items[..n][k], env).threw;
          }
        }
      }
    }
  }

  /** One more item cuts the loop short exactly when the loop already was, or that item lets an error escape. */
  lemma AbortedStep(channel: Channel, items: seq<Submission>, env: Collaborators)
    requires items != []
    ensures var n := |items| - 1;
      DispatchAll(channel, items, env).aborted <==>
        DispatchAll(channel, items[..n], env).aborted || DispatchSubmission(channel, n, items[n], env).threw
  {
  }

  /** All items' calls one after another, as if no error ever escaped. */
  function AllCalls(channel: Channel, items: seq<Submission>, env: Collaborators): seq<Call> {
    if items == [] then []
    else
      var n := |items| - 1;
      AllCalls(channel, items[..n], env) + DispatchSubmission(channel, n, items[n], env).calls
  }

  /** Whether no item lets an error escape. */
  predicate NoneThrows(channel: Channel, items: seq<Submission>, env: Collaborators) {
    forall k {:trigger DispatchSubmission(channel, k, items[k], env)} ::
      0 <= k < |items| ==> !DispatchSubmission(channel, k, items[k], env).threw
  }

  /** Dispatching item `i` after items `0..i` extends the posts by that item's posts; if it throws, the loop is over. */
  lemma DispatchAllStep(channel: Channel, items: seq<Submission>, i: nat, env: Collaborators)
    requires i < |items| && !DispatchAll(channel, items[..i], env).aborted
    ensures var d := DispatchSubmission(channel, i, items[i], env);
      && DispatchAll(channel, items[..i + 1], env).aborted == d.threw
      && Sent(DispatchAll(channel, items[..i + 1], env).calls) == Sent(DispatchAll(channel, items[..i], env).calls) + Sent(d.calls)
      && (d.threw ==> DispatchAll(channel, items, env) == DispatchAll(channel, items[..i + 1], env))
  {
    var next := items[..i + 1];
    assert next[..i] == items[..i] && next[i] == items[i];
    SentConcat(DispatchAll(channel, items[..i], env).calls, DispatchSubmission(channel, i, items[i], env).calls);
    if DispatchSubmission(channel, i, items[i], env).threw {
      AbortSkipsRest(channel, items, i + 1, env);
    }
  }

  /** A log holding the posts of items `0..i` grows by item `i`'s posts into one holding those of items `0..i + 1`. */
  lemma LogAfterStep(log: seq<Message>, channel: Channel, items: seq<Submission>, i: nat, env: Collaborators)
    requires i < |items| && !DispatchAll(channel, items[..i], env).aborted
    ensures log + Sent(DispatchAll(channel, items[..i + 1], env).calls) ==
      (log + Sent(DispatchAll(channel, items[..i], env).calls)) + Sent(DispatchSubmission(channel, i, items[i], env).calls)
  {
    DispatchAllStep(channel, items, i, env);
  }

  /** Once the loop has aborted, the next item changes nothing. */
  lemma AbortedStays(channel: Channel, items: seq<Submission>, env: Collaborators)
    requires items != [] && DispatchAll(channel, items[..|items| - 1], env).aborted
    ensures DispatchAll(channel, items, env) == DispatchAll(channel, items[..|items| - 1], env)
  {
  }

  /** Once the loop has aborted within the first `n` items, later items are never dispatched. */
  lemma AbortSkipsRest(channel: Channel, items: seq<Submission>, n: nat, env: Collaborators)
    requires n <= |items| && DispatchAll(channel, items[..n], env).aborted
    ensures DispatchAll(channel, items, env) == DispatchAll(channel, items[..n], env)
  {
    AbortPersists(channel, items, n, |items|, env);
    assert items[..|items|] == items;
  }

  /** An aborted loop stays as it is through every later item. */
  lemma {:induction false} AbortPersists(channel: Channel, items: seq<Submission>, n: nat, m: nat, env: Collaborators)
    requires n <= m <= |items| && DispatchAll(channel, items[..n], env).aborted
    ensures DispatchAll(channel, items[..m], env) == DispatchAll(channel, items[..n], env)
    decreases m
  {
    if n < m {
      AbortPersists(channel, items, n, m - 1, env);
      assert items[..m][..m - 1] == items[..m - 1];
      AbortedStays(channel, items[..m], env);
    }
  }

  /** When no item lets an error escape, every item is dispatched, in retrieval order. */
  lemma {:induction false} DispatchAllWithoutThrow(channel: Channel, items: seq<Submission>, env: Collaborators)
    requires NoneThrows(channel, items, env)
    ensures DispatchAll(channel, items, env) == Run(AllCalls(channel, items, env), false)
    decreases |items|
  {
    if items != [] {
      var n := |items| - 1;
      assert NoneThrows(channel, items[..n], env) by {
        forall k | 0 <= k < n ensures !DispatchSubmission(channel, k, items[..n][k], env).threw {
          assert items[..n][k] == items[k];
          assert !DispatchSubmission(channel, k, items[k], env).threw;
        }
      }
      DispatchAllWithoutThrow(channel, items[..n], env);
      assert !DispatchSubmission(channel, n, items[n], env).threw;
    }
  }

  /** When item `j` is the first to let an error escape, items `0..j` are dispatched, in order, and none after. */
  lemma DispatchAllUpToThrow(channel: Channel, items: seq<Submission>, j: nat, env: Collaborators)
    requires j < |items| && NoneThrows(channel, items[..j], env)
    requires DispatchSubmission(channel, j, items[j], env).threw
    ensures DispatchAll(channel, items, env) == Run(AllCalls(channel, items[..j + 1], env), true)
  {
    var upTo := items[..j + 1];
    assert upTo[..j] == items[..j] && upTo[j] == items[j];
    DispatchAllWithoutThrow(channel, items[..j], env);
    var d := DispatchSubmission(channel, j, items[j], env);
    assert DispatchAll(channel, upTo, env) == Run(AllCalls(channel, items[..j], env) + d.calls, true);
    assert AllCalls(channel, upTo, env) == AllCalls(channel, items[..j], env) + d.calls;
    AbortSkipsRest(channel, items, j + 1, env);
  }

  /**
   * Items are dispatched in retrieval order, each one finished before the
   * next. When no item lets an error escape, every item is dispatched; when
   * item `j` is the first to do so, items up to `j` are dispatched and none
   * after it.
   */
  lemma DispatchInOrder(channel: Channel, items: seq<Submission>, env: Collaborators)
    ensures NoneThrows(channel, items, env) ==>
      DispatchAll(channel, items, env) == Run(AllCalls(channel, items, env), false)
    ensures forall j ::
      (0 <= j < |items| && NoneThrows(channel, items[..j], env) && DispatchSubmission(channel, j, items[j], env).threw) ==>
      DispatchAll(channel, items, env) == Run(AllCalls(channel, items[..j + 1], env), true)
  {
    if NoneThrows(channel, items, env) {
      DispatchAllWithoutThrow(channel, items, env);
    }
    forall j | 0 <= j < |items| && NoneThrows(channel, items[..j], env) &&
      DispatchSubmission(channel, j, items[j], env).threw
      ensures DispatchAll(channel, items, env) == Run(AllCalls(channel, items[..j + 1], env), true)
    {
      DispatchAllUpToThrow(channel, items, j, env);
    }
  }

  /** Every item posts exactly one message. */
  ghost predicate OnePostEach(channel: Channel, items: seq<Submission>, env: Collaborators) {
    forall k {:trigger DispatchSubmission(channel, k, items[k], env)} ::
      0 <= k < |items| ==> |Sent(DispatchSubmission(channel, k, items[k], env).calls)| == 1
  }

  /** One post per item holds of every prefix of the items. */
  lemma OnePostEachPrefix(channel: Channel, items: seq<Submission>, n: nat, env: Collaborators)
    requires n <= |items| && OnePostEach(channel, items, env)
    ensures OnePostEach(channel, items[..n], env)
  {
    forall k | 0 <= k < n
      ensures |Sent(DispatchSubmission(channel, k, items[..n][k], env).calls)| == 1
    {
      assert items[..n][k] == items[k];
    }
  }

  /** The posts of the first `n` items followed by those of item `n` are the posts of the first `n + 1` items. */
  lemma AllCallsSnoc(channel: Channel, items: seq<Submission>, env: Collaborators)
    requires items != []
    ensures var n := |items| - 1;
      Sent(AllCalls(channel, items, env)) ==
        Sent(AllCalls(channel, items[..n], env)) + Sent(DispatchSubmission(channel, n, items[n], env).calls)
  {
    var n := |items| - 1;
    SentConcat(AllCalls(channel, items[..n], env), DispatchSubmission(channel, n, items[n], env).calls);
  }

  /** When every item posts exactly one message, there are as many posts as items. */
  lemma {:induction false} PostsLength(channel: Channel, items: seq<Submission>, env: Collaborators)
    requires OnePostEach(channel, items, env)
    ensures |Sent(AllCalls(channel, items, env))| == |items|
    decreases |items|
  {
    if items != [] {
      var n := |items| - 1;
      OnePostEachPrefix(channel, items, n, env);
      PostsLength(channel, items[..n], env);
      AllCallsSnoc(channel, items, env);
    }
  }

  /** The posts of the first `m` items begin the posts of all items. */
  lemma {:induction false} PrefixPosts(channel: Channel, items: seq<Submission>, m: nat, env: Collaborators)
    requires m <= |items|
    ensures Sent(AllCalls(channel, items[..m], env)) <= Sent(AllCalls(channel, items, env))
    decreases |items|
  {
    if m == |items| {
      assert items[..m] == items;
    } else {
      var n := |items| - 1;
      assert items[..n][..m] == items[..m];
      PrefixPosts(channel, items[..n], m, env);
      AllCallsSnoc(channel, items, env);
    }
  }

  /** When every item posts exactly one message, item `k`'s post comes right after those of items `0..k`. */
  lemma OwnPostAfterPrefix(channel: Channel, items: seq<Submission>, k: nat, env: Collaborators)
    requires k < |items| && OnePostEach(channel, items, env)
    ensures var pre := Sent(AllCalls(channel, items[..k + 1], env));
      var own := Sent(DispatchSubmission(channel, k, items[k], env).calls);
      |own| == 1 && |pre| == k + 1 && pre[k] == own[0]
  {
    var upTo := items[..k + 1];
    assert upTo[..k] == items[..k] && upTo[k] == items[k];
    OnePostEachPrefix(channel, items, k, env);
    PostsLength(channel, items[..k], env);
    AllCallsSnoc(channel, upTo, env);
    var before := Sent(AllCalls(channel, items[..k], env));
    var own := Sent(DispatchSubmission(channel, k, items[k], env).calls);
    assert Sent(AllCalls(channel, upTo, env)) == before + own;
    assert |before| == k && |own| == 1;
  }

  /** When every item posts exactly one message, the post at index `k` is item `k`'s. */
  lemma PostAt(channel: Channel, items: seq<Submission>, k: nat, env: Collaborators)
    requires k < |items| && OnePostEach(channel, items, env)
    ensures k < |Sent(AllCalls(channel, items, env))|
    ensures Sent(DispatchSubmission(channel, k, items[k], env).calls) == [Sent(AllCalls(channel, items, env))[k]]
  {
    OwnPostAfterPrefix(channel, items, k, env);
    PrefixPosts(channel, items, k + 1, env);
    var all := Sent(AllCalls(channel, items, env));
    var pre := Sent(AllCalls(channel, items[..k + 1], env));
    assert pre <= all;
    assert all[k] == pre[k];
  }

  /** When every item posts exactly one message, the posts of all items line up with the items. */
  lemma OneMessageEach(channel: Channel, items: seq<Submission>, env: Collaborators)
    requires OnePostEach(channel, items, env)
    ensures var ms := Sent(AllCalls(channel, items, env));
      && |ms| == |items|
      && forall k {:trigger DispatchSubmission(channel, k, items[k], env)} ::
        0 <= k < |items| ==> Sent(DispatchSubmission(channel, k, items[k], env).calls) == [ms[k]]
  {
    PostsLength(channel, items, env);
    forall k | 0 <= k < |items|
      ensures Sent(DispatchSubmission(channel, k, items[k], env).calls) == [Sent(AllCalls(channel, items, env))[k]]
    {
      PostAt(channel, items, k, env);
    }
  }

  /** The diagnostic embed for a topic: titled with the topic, naming it in French, linking to its page. */
  function ErrorEmbed(topic: string, serviceUrl: string): (m: Message)
    ensures m.Diagnostic? && m.title == topic
    ensures |m.description| == |topic| + 38
    ensures m.description[..13] == "Le reddit /r/" && m.description[13..13 + |topic|] == topic
    ensures m.description[13 + |topic|..] == " ne semble pas disponible"
    ensures |m.url| == |serviceUrl| + |topic| + 3
    ensures m.url[..|serviceUrl|] == serviceUrl && m.url[|serviceUrl|..] == "/r/" + topic
  {
    Diagnostic(topic, "Le reddit /r/" + topic + " ne semble pas disponible", serviceUrl + "/r/" + topic)
  }

  /**
   * Whether the channel's processing fails: the fetch for its topic fails,
   * or some fetched item lets an error escape.
   */
  function ChannelFails(channel: Channel, env: Collaborators): (fails: bool)
    requires channel.topic.Some?
    ensures var f := env.getTop(channel, channel.topic.value);
      fails <==> (f.FetchFailed? ||
        exists k :: 0 <= k < |f.items| && DispatchSubmission(channel, k, f.items[k], env).threw)
  {
    match env.getTop(channel, channel.topic.value)
    case FetchFailed => true
    case Fetched(items) =>
      AbortedIff(channel, items, env);
      DispatchAll(channel, items, env).aborted
  }

  lemma {:induction false} DispatchAllPostsNoDiagnostic(channel: Channel, items: seq<Submission>, env: Collaborators)
    ensures PostsNoDiagnostic(DispatchAll(channel, items, env).calls)
    decreases |items|
  {
    if items != [] {
      var n := |items| - 1;
      DispatchAllPostsNoDiagnostic(channel, items[..n], env);
      AtMostOneMessagePerItem(channel, n, items[n], env);
    }
  }

  /**
   * `sendSubmissionsToChannel`: what a channel receives. Nothing when it is
   * not eligible; only the diagnostic embed when its fetch fails; otherwise
   * the messages its items post, followed by the diagnostic embed when an
   * error escaped the loop. An eligible channel thus receives exactly one
   * diagnostic, as its last message, when its processing fails, and none
   * otherwise. Which item messages come before it is stated by
   * `ChannelMessagesWithoutThrow` and `ChannelMessagesUpToThrow`.
   */
  function ChannelMessages(channel: Channel, env: Collaborators, serviceUrl: string): (ms: seq<Message>)
    ensures !IsEligible(channel.topic) ==> ms == []
    ensures IsEligible(channel.topic) && env.getTop(channel, channel.topic.value).FetchFailed? ==>
      ms == [ErrorEmbed(channel.topic.value, serviceUrl)]
    ensures IsEligible(channel.topic) ==> DiagnosticCount(ms) == (if ChannelFails(channel, env) then 1 else 0)
    ensures IsEligible(channel.topic) && ChannelFails(channel, env) ==>
      ms != [] && ms[|ms| - 1] == ErrorEmbed(channel.topic.value, serviceUrl)
  {
    if !IsEligible(channel.topic) then []
    else
      var embed := ErrorEmbed(channel.topic.value, serviceUrl);
      assert DiagnosticCount([embed]) == 1 by {
        assert [embed][1..] == [];
      }
      match env.getTop(channel, channel.topic.value)
      case FetchFailed => [embed]
      case Fetched(items) =>
        var run := DispatchAll(channel, items, env);
        var diagnostic := if run.aborted then [embed] else [];
        DispatchAllPostsNoDiagnostic(channel, items, env);
        NoDiagnosticSent(run.calls);
        DiagnosticCountConcat(Sent(run.calls), diagnostic);
        Sent(run.calls) + diagnostic
  }

  /**
   * When no fetched item lets an error escape, an eligible channel receives
   * the posts of every item's calls, in retrieval order, and no diagnostic.
   */
  lemma ChannelMessagesWithoutThrow(channel: Channel, env: Collaborators, serviceUrl: string)
    requires IsEligible(channel.topic) && env.getTop(channel, channel.topic.value).Fetched?
    requires NoneThrows(channel, env.getTop(channel, channel.topic.value).items, env)
    ensures ChannelMessages(channel, env, serviceUrl) ==
      Sent(AllCalls(channel, env.getTop(channel, channel.topic.value).items, env))
  {
    DispatchAllWithoutThrow(channel, env.getTop(channel, channel.topic.value).items, env);
  }

  /**
   * When item `j` is the first whose error escapes, an eligible channel
   * receives the posts of items `0..j`, in retrieval order, then one
   * diagnostic; the items after `j` are skipped.
   */
  lemma ChannelMessagesUpToThrow(channel: Channel, env: Collaborators, serviceUrl: string, j: nat)
    requires IsEligible(channel.topic) && env.getTop(channel, channel.topic.value).Fetched?
    requires var items := env.getTop(channel, channel.topic.value).items;
      j < |items| && NoneThrows(channel, items[..j], env) && DispatchSubmission(channel, j, items[j], env).threw
    ensures ChannelMessages(channel, env, serviceUrl) ==
      Sent(AllCalls(channel, env.getTop(channel, channel.topic.value).items[..j + 1], env)) +
      [ErrorEmbed(channel.topic.value, serviceUrl)]
  {
    DispatchAllUpToThrow(channel, env.getTop(channel, channel.topic.value).items, j, env);
  }

  /**
   * When the plain-text fallback calls never fail, an eligible channel whose
   * fetch succeeds receives exactly one message per fetched item, in
   * retrieval order, and no diagnostic.
   */
  lemma EveryItemDeliveredOnce(channel: Channel, env: Collaborators, serviceUrl: string)
    requires IsEligible(channel.topic) && env.getTop(channel, channel.topic.value).Fetched?
    requires FallbackNeverFails(channel, env)
    ensures var items := env.getTop(channel, channel.topic.value).items;
      var ms := ChannelMessages(channel, env, serviceUrl);
      && |ms| == |items|
      && forall k :: 0 <= k < |items| ==> Sent(DispatchSubmission(channel, k, items[k], env).calls) == [ms[k]]
  {
    var items := env.getTop(channel, channel.topic.value).items;
    forall k | 0 <= k < |items|
      ensures |Sent(DispatchSubmission(channel, k, items[k], env).calls)| == 1
      ensures !DispatchSubmission(channel, k, items[k], env).threw
    {
      AtMostOneMessagePerItem(channel, k, items[k], env);
    }
    DispatchAllWithoutThrow(channel, items, env);
    OneMessageEach(channel, items, env);
  }

  /** "funny" has no space, so a channel with that topic takes part. */
  lemma FunnyIsEligible()
    ensures IsEligible(Some("funny"))
  {
    assert TrimEnd("funny") == "funny";
  }

  /**
   * A channel with topic "funny" whose feed returns a direct image and then
   * a plain text post: the image renderer is called first, the selftext
   * renderer second, and both posts arrive in that order.
   */
  lemma FunnyChannelExample(channel: Channel, env: Collaborators, image: Submission, text: Submission, serviceUrl: string)
    requires channel.topic == Some("funny")
    requires env.getTop(channel, "funny") == Fetched([image, text])
    requires !Includes(image.url, "gallery") && env.isUrlAnImage(image.url)
    requires env.render(CallSite(channel, 0, Action), AsImage, image) == Success
    requires !Includes(text.url, "gallery") && !env.isUrlAnImage(text.url) && !text.isVideo && text.selftext != ""
    requires !text.over18 && !text.spoiler && Utf16Length(text.selftext) <= ContentText.MAX_SELFTEXT_LENGTH
    ensures DispatchAll(channel, [image, text], env).calls ==
      [Call(AsImage, image, Success, Some(Posted(AsImage, image))),
       Call(AsContentText, text, Success, Some(Markdown(ContentText.Layout(text.title, text.selftext))))]
    ensures ChannelMessages(channel, env, serviceUrl) ==
      [Posted(AsImage, image), Markdown(ContentText.Layout(text.title, text.selftext))]
  {
    var posted := Call(AsImage, image, Success, Some(Posted(AsImage, image)));
    var markdown := Call(AsContentText, text, Success, Some(Markdown(ContentText.Layout(text.title, text.selftext))));
    DispatchSteps(channel, 0, image, env);
    DispatchSteps(channel, 1, text, env);
    assert DispatchSubmission(channel, 0, image, env) == Dispatched([posted], false);
    assert DispatchSubmission(channel, 1, text, env) == Dispatched([markdown], false);
    assert [image, text][..1] == [image] && [image][..0] == [];
    assert DispatchAll(channel, [image], env) == Run([posted], false);
    assert [posted, markdown][1..] == [markdown];
    assert [markdown][1..] == [];
    FunnyIsEligible();
    assert Sent([posted, markdown]) == [posted.sent.value, markdown.sent.value];
  }

  // ---------------------------------------------------------------------------
  // The service

  /** The distribution service; `serviceUrl` is the feed platform's web address from the configuration. */
  class RedditService {
    const serviceUrl: string

    constructor (serviceUrl: string)
      ensures this.serviceUrl == serviceUrl
    {
      this.serviceUrl := serviceUrl;
    }

    /**
     * `sendSubmissionsToChannels`: every channel, one after another, receives
     * what `ChannelMessages` describes for it.
     */
    method SendSubmissionsToChannels(channels: seq<Channel>, env: Collaborators)
      requires forall i, j :: 0 <= i < j < |channels| ==> channels[i] != channels[j]
      modifies set c | c in channels
      ensures forall i :: 0 <= i < |channels| ==>
        channels[i].log == old(channels[i].log) + ChannelMessages(channels[i], env, serviceUrl)
    {
      for n := 0 to |channels|
        invariant forall i :: 0 <= i < n ==>
          channels[i].log == old(channels[i].log) + ChannelMessages(channels[i], env, serviceUrl)
        invariant forall i :: n <= i < |channels| ==> channels[i].log == old(channels[i].log)
      {
        SendSubmissionsToChannel(channels[n], env);
      }
    }

    /** `sendSubmissionsToChannel`: one channel receives exactly `ChannelMessages` for it. */
    method SendSubmissionsToChannel(channel: Channel, env: Collaborators)
      modifies channel
      ensures channel.log == old(channel.log) + ChannelMessages(channel, env, serviceUrl)
    {
      if !IsEligible(channel.topic) {
        return;
      }
      var topic := channel.topic.value;
      var fetched := env.getTop(channel, topic);
      if fetched.FetchFailed? {
        SendEmbedError(channel);
        return;
      }
      var aborted := SendEachSubmission(channel, fetched.items, env);
      if aborted {
        SendEmbedError(channel);
        ghost var posts := Sent(DispatchAll(channel, fetched.items, env).calls);
        assert (old(channel.log) + posts) + [ErrorEmbed(topic, serviceUrl)] ==
          old(channel.log) + (posts + [ErrorEmbed(topic, serviceUrl)]);
      }
    }

    /** The `for` loop of `sendSubmissionsToChannel`: items in order, until an error escapes. */
    method SendEachSubmission(channel: Channel, items: seq<Submission>, env: Collaborators) returns (aborted: bool)
      modifies channel
      ensures channel.log == old(channel.log) + Sent(DispatchAll(channel, items, env).calls)
      ensures aborted == DispatchAll(channel, items, env).aborted
    {
      for i := 0 to |items|
        invariant !DispatchAll(channel, items[..i], env).aborted
        invariant channel.log == old(channel.log) + Sent(DispatchAll(channel, items[..i], env).calls)
      {
        var threw := SendNextSubmission(channel, items, i, env, old(channel.log));
        if threw {
          return true;
        }
      }
      assert items[..|items|] == items;
      return false;
    }

    /**
     * One pass of that loop: item `i` is sent after items `0..i`, whose posts
     * follow `before` in the channel's log.
     */
    method SendNextSubmission(channel: Channel, items: seq<Submission>, i: nat, env: Collaborators, ghost before: seq<Message>)
      returns (threw: bool)
      requires i < |items| && !DispatchAll(channel, items[..i], env).aborted
      requires channel.log == before + Sent(DispatchAll(channel, items[..i], env).calls)
      modifies channel
      ensures channel.log == before + Sent(DispatchAll(channel, items[..i + 1], env).calls)
      ensures threw == DispatchAll(channel, items[..i + 1], env).aborted
      ensures threw ==> DispatchAll(channel, items, env) == DispatchAll(channel, items[..i + 1], env)
    {
      threw := SendSubmissionToChannel(channel, i, items[i], env);
      DispatchAllStep(channel, items, i, env);
      LogAfterStep(before, channel, items, i, env);
    }

    /**
     * `sendSubmissionToChannel`: the registered renderer, the plain-text call
     * inside the `try` after an `Error`, and the plain-text call of the
     * `catch`; the channel receives what these calls post.
     */
    method SendSubmissionToChannel(channel: Channel, position: nat, submission: Submission, env: Collaborators)
      returns (threw: bool)
      modifies channel
      ensures channel.log == old(channel.log) + Sent(DispatchSubmission(channel, position, submission, env).calls)
      ensures threw == DispatchSubmission(channel, position, submission, env).threw
    {
      var kind := GetSubmissionType(submission, env.isUrlAnImage);
      var action := GetSubmissionActionMap(kind);
      var result := CallRenderer(channel, position, Action, action, submission, env);
      ghost var calls := [CallAt(channel, position, Action, action, submission, env)];
      SentSnoc(old(channel.log), [], calls[0]);
      var caught := result == Throw;
      if result == Error {
        var fallback := CallRenderer(channel, position, TextAfterError, AsText, submission, env);
        ghost var call := CallAt(channel, position, TextAfterError, AsText, submission, env);
        SentSnoc(old(channel.log), calls, call);
        calls := calls + [call];
        caught := fallback == Throw;
      }
      threw := false;
      if caught {
        var last := CallRenderer(channel, position, TextInCatch, AsText, submission, env);
        ghost var call := CallAt(channel, position, TextInCatch, AsText, submission, env);
        SentSnoc(old(channel.log), calls, call);
        calls := calls + [call];
        threw := last == Throw;
      }
      DispatchSteps(channel, position, submission, env);
      assert calls == DispatchSubmission(channel, position, submission, env).calls;
    }

    /** One renderer call at a given step: the channel receives what the call posts, and the call's outcome is returned. */
    method CallRenderer(channel: Channel, position: nat, step: Step, renderer: Renderer, submission: Submission, env: Collaborators)
      returns (outcome: Outcome)
      modifies channel
      ensures outcome == CallAt(channel, position, step, renderer, submission, env).outcome
      ensures channel.log == old(channel.log) + Posts(CallAt(channel, position, step, renderer, submission, env))
    {
      var call := CallAt(channel, position, step, renderer, submission, env);
      if call.sent.Some? {
        channel.Send(call.sent.value);
      }
      outcome := call.outcome;
    }

    /** `sendEmbedError`: the channel receives the diagnostic embed for its topic. */
    method SendEmbedError(channel: Channel)
      requires channel.topic.Some?
      modifies channel
      ensures channel.log == old(channel.log) + [ErrorEmbed(channel.topic.value, serviceUrl)]
    {
      channel.Send(ErrorEmbed(channel.topic.value, serviceUrl));
    }
  }
}
