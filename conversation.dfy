/**
 * The conversation controller over the page's session dictionary
 * (`st.session_state`). Three keys matter: `user_data` (the submitted
 * intake), `consult_started` (a flag) and `chat_history` (the transcript).
 * Each page run handles at most one user action; the step functions below
 * say what one action does to the dictionary and which message lists it
 * hands to the completion service, and the `Session` class performs the
 * same updates in place.
 */
module Conversation {
  import opened CompletionClient
  import opened PromptBuilder

  /** A value stored under one of the three keys. */
  datatype Value = UserData(intake: Intake) | Flag(flag: bool) | History(messages: seq<Message>)

  /** A key of the session dictionary: the three the page owns, and any
      other entry (widget state) under its own name. */
  datatype Key = UserDataKey | StartedKey | HistoryKey | Other(name: string)

  /** The string under which the page stores each key. */
  function KeyName(k: Key): string {
    match k
    case UserDataKey => "user_data"
    case StartedKey => "consult_started"
    case HistoryKey => "chat_history"
    case Other(name) => name
  }

  /** The session dictionary. Keys other than the three are left alone. */
  type Store = map<Key, Value>

  /** The keys the start-over button deletes, in the order it deletes them. */
  const SessionKeys: seq<Key> := [UserDataKey, StartedKey, HistoryKey]

  /** Python truthiness of a stored value. */
  predicate Truthy(v: Value) {
    match v
    case UserData(_) => true
    case Flag(b) => b
    case History(ms) => ms != []
  }

  /** The intake form is drawn only while no intake is stored. */
  predicate FormOffered(st: Store) {
    UserDataKey !in st
  }

  /** `st.session_state.get('consult_started')` is truthy: the transcript,
      the chat box and the start-over button are drawn. */
  predicate Started(st: Store) {
    StartedKey in st && Truthy(st[StartedKey])
  }

  predicate HasHistory(st: Store) {
    HistoryKey in st && st[HistoryKey].History?
  }

  /** Neighbouring entries come from different speakers. */
  predicate Alternates(h: seq<Message>)
    decreases |h|
  {
    |h| <= 1 || (h[0].role != h[1].role && Alternates(h[1..]))
  }

  /** A user turn and its reply extend an alternating transcript that ends
      with a reply, and the result again ends with a reply. */
  lemma {:induction false} AlternatesAppendTurn(h: seq<Message>, question: string, answer: string)
    requires h != [] && Alternates(h) && h[|h| - 1].role == Assistant
    ensures Alternates(h + [Message(User, question), Message(Assistant, answer)])
    decreases |h|
  {
    var turn := [Message(User, question), Message(Assistant, answer)];
    if |h| == 1 {
      assert (h + turn)[1..] == turn;
    } else {
      AlternatesAppendTurn(h[1..], question, answer);
      assert (h + turn)[1..] == h[1..] + turn;
    }
  }

  /** A consultation transcript for intake `i`: the summary as a user
      message, then user and assistant turns in strict alternation, ending
      with an assistant reply. */
  predicate IsTranscript(i: Intake, h: seq<Message>) {
    2 <= |h| && h[0] == Message(User, Summary(i)) && h[|h| - 1].role == Assistant && Alternates(h)
  }

  /** A user turn and its reply extend a transcript to a transcript of the
      same consultation. */
  lemma TranscriptAppendTurn(i: Intake, h: seq<Message>, question: string, answer: string)
    requires IsTranscript(i, h)
    ensures IsTranscript(i, h + [Message(User, question)] + [Message(Assistant, answer)])
  {
    AlternatesAppendTurn(h, question, answer);
    assert h + [Message(User, question)] + [Message(Assistant, answer)]
        == h + [Message(User, question), Message(Assistant, answer)];
  }

  /** Before a consultation: none of the three keys is present. */
  predicate Idle(st: Store) {
    UserDataKey !in st && StartedKey !in st && HistoryKey !in st
  }

  /** During a consultation: an accepted intake, the flag set, and a
      transcript that opens with that intake's summary. */
  predicate Active(st: Store) {
    UserDataKey in st && st[UserDataKey].UserData? && Accepted(st[UserDataKey].intake) &&
    StartedKey in st && st[StartedKey] == Flag(true) &&
    HasHistory(st) && IsTranscript(st[UserDataKey].intake, st[HistoryKey].messages)
  }

  /** The states a session can reach. */
  predicate Inv(st: Store) {
    Idle(st) || Active(st)
  }

  /** The part of the dictionary that the consultation does not own. */
  function Others(st: Store): Store {
    st - {UserDataKey, StartedKey, HistoryKey}
  }

  /** The result of one action: the new dictionary and the message lists
      passed to the completion service, in call order. */
  datatype Step = Step(store: Store, requests: seq<seq<Message>>)

  /** Every completion request is non-empty and ends with a user message. */
  predicate WellFormedRequests(requests: seq<seq<Message>>) {
    forall q: seq<Message> :: q in requests ==> q != [] && q[|q| - 1].role == User
  }

  /** A single request that is non-empty and ends with a user turn. */
  lemma SingleRequestWellFormed(q: seq<Message>)
    requires q != [] && q[|q| - 1].role == User
    ensures WellFormedRequests([q])
  {
  }

  /** Pressing "Start Consultation". A rejected form writes nothing and
      calls nothing. An accepted one stores exactly the submitted fields,
      sets the flag, replaces any earlier transcript by the summary and the
      reply to the instruction prompt, and makes one call whose only
      message is that prompt. */
  function SubmitStep(st: Store, f: Intake, complete: Oracle): (r: Step)
    ensures Validate(f.age, f.symptoms).Reject? ==> r == Step(st, [])
    ensures Validate(f.age, f.symptoms) == Accept ==>
      Active(r.store) && !FormOffered(r.store) && Started(r.store) &&
      r.store[UserDataKey] == UserData(f) &&
      r.store[HistoryKey].messages ==
        [Message(User, Summary(f)), Message(Assistant, complete(ToOpenAI([Message(User, InitialPrompt(f))])))] &&
      r.requests == [[Message(User, InitialPrompt(f))]] &&
      Others(r.store) == Others(st)
  {
    match Validate(f.age, f.symptoms)
    case Reject(_) => Step(st, [])
    case Accept =>
      var first := [Message(User, InitialPrompt(f))];
      var reply := GetResponse(complete, first);
      var transcript := [Message(User, Summary(f)), Message(Assistant, reply)];
      var r := Step(st[UserDataKey := UserData(f)][StartedKey := Flag(true)][HistoryKey := History(transcript)],
                    [first]);
      assert Others(r.store) == Others(st);
      r
  }

  /** Entering a chat message. An empty input does nothing. Otherwise the
      message and then the reply are appended, earlier entries unchanged,
      and the one call sees the whole transcript up to and including the
      new message. A consultation stays a consultation. */
  function SendStep(st: Store, text: string, complete: Oracle): (r: Step)
    requires HasHistory(st)
    ensures text == "" ==> r == Step(st, [])
    ensures text != "" ==>
      var h := st[HistoryKey].messages;
      var asked := h + [Message(User, text)];
      HasHistory(r.store) &&
      r.store[HistoryKey].messages == asked + [Message(Assistant, complete(ToOpenAI(asked)))] &&
      r.requests == [asked] &&
      r.store == st[HistoryKey := r.store[HistoryKey]]
    ensures Active(st) ==> Active(r.store) && r.store[UserDataKey] == st[UserDataKey]
  {
    if text == "" then Step(st, [])
    else
      var asked := st[HistoryKey].messages + [Message(User, text)];
      var reply := GetResponse(complete, asked);
      var h := asked + [Message(Assistant, reply)];
      var r := Step(st[HistoryKey := History(h)], [asked]);
      assert Active(st) ==> IsTranscript(st[UserDataKey].intake, h) by {
        if Active(st) {
          TranscriptAppendTurn(st[UserDataKey].intake, st[HistoryKey].messages, text, reply);
        }
      }
      r
  }

  /** Pressing "Start Over": the three keys are gone, whichever of them were
      present, and the form is offered again. */
  function ResetStore(st: Store): (r: Store)
    ensures Idle(r) && FormOffered(r) && !Started(r) && Inv(r)
    ensures Others(r) == Others(st) && r == Others(st)
  {
    st - {UserDataKey, StartedKey, HistoryKey}
  }

  /** The one user action of a page run. */
  datatype Event = FormSubmitted(form: Intake) | ChatEntered(text: string) | StartOverClicked | NoInput

  /** One run of the page script: the form is live only while no intake is
      stored, the chat box and the start-over button only while the
      consultation has started. A run without input only redraws. */
  function RerunStep(st: Store, e: Event, complete: Oracle): (r: Step)
    requires Inv(st)
    ensures e == NoInput ==> r == Step(st, [])
    ensures !Started(st) && !e.FormSubmitted? ==> r == Step(st, [])
    ensures !FormOffered(st) && e.FormSubmitted? ==> r == Step(st, [])
    ensures FormOffered(st) && e.FormSubmitted? ==> r == SubmitStep(st, e.form, complete)
    ensures Started(st) && e.ChatEntered? ==> r == SendStep(st, e.text, complete)
    ensures Started(st) && e == StartOverClicked ==> r == Step(ResetStore(st), [])
  {
    match e
    case FormSubmitted(f) =>
      if FormOffered(st) then SubmitStep(st, f, complete) else Step(st, [])
    case ChatEntered(text) =>
      if Started(st) then SendStep(st, text, complete) else Step(st, [])
    case StartOverClicked =>
      if Started(st) then Step(ResetStore(st), []) else Step(st, [])
    case NoInput => Step(st, [])
  }

  /** A submitted form keeps the session reachable, leaves the other keys
      alone and sends only the prompt, which ends with a user turn. */
  lemma SubmitKeepsInv(st: Store, f: Intake, complete: Oracle)
    requires Inv(st)
    ensures var r := SubmitStep(st, f, complete);
      Inv(r.store) && Others(r.store) == Others(st) && WellFormedRequests(r.requests)
  {
    if Validate(f.age, f.symptoms) == Accept {
      SingleRequestWellFormed([Message(User, InitialPrompt(f))]);
    }
  }

  /** A chat message during a consultation keeps it a consultation, leaves
      the other keys alone and asks with a list ending in the new message. */
  lemma SendKeepsInv(st: Store, text: string, complete: Oracle)
    requires Active(st)
    ensures var r := SendStep(st, text, complete);
      Active(r.store) && Others(r.store) == Others(st) && WellFormedRequests(r.requests)
    ensures var r := SendStep(st, text, complete);
      text != "" ==> |r.requests| == 1 && r.requests[0] != [] &&
                     r.requests[0][|r.requests[0]| - 1] == Message(User, text)
  {
    SendKeepsOthers(st, text, complete);
    SendAsksWithMessage(st, text, complete);
  }

  /** A chat message changes only the transcript key. */
  lemma SendKeepsOthers(st: Store, text: string, complete: Oracle)
    requires Active(st)
    ensures var r := SendStep(st, text, complete);
      Active(r.store) && Others(r.store) == Others(st)
  {
    var r := SendStep(st, text, complete);
    if text != "" {
      assert Others(r.store) == Others(st);
    }
  }

  /** A chat message asks once, with a list that ends in that message. */
  lemma SendAsksWithMessage(st: Store, text: string, complete: Oracle)
    requires HasHistory(st)
    ensures var r := SendStep(st, text, complete);
      WellFormedRequests(r.requests) &&
      (text != "" ==> |r.requests| == 1 && r.requests[0] != [] &&
                      r.requests[0][|r.requests[0]| - 1] == Message(User, text))
  {
    if text != "" {
      SingleRequestWellFormed(st[HistoryKey].messages + [Message(User, text)]);
    }
  }

  /** Every action keeps the session in a reachable state, leaves the other
      keys alone, and sends only non-empty requests that end with a user
      turn. */
  lemma RerunKeepsInv(st: Store, e: Event, complete: Oracle)
    requires Inv(st)
    ensures var r := RerunStep(st, e, complete);
      Inv(r.store) && Others(r.store) == Others(st) && WellFormedRequests(r.requests)
  {
    match e
    case FormSubmitted(f) =>
      if FormOffered(st) {
        SubmitKeepsInv(st, f, complete);
      }
    case ChatEntered(text) =>
      if Started(st) {
        SendKeepsInv(st, text, complete);
      }
    case StartOverClicked =>
    case NoInput =>
  }

  /** `after` is still the consultation `before` was: the same intake, and
      the earlier transcript as a prefix of the new one. */
  predicate Continues(before: Store, after: Store) {
    Active(before) && Active(after) && after[UserDataKey] == before[UserDataKey] &&
    before[HistoryKey].messages <= after[HistoryKey].messages
  }

  /** A chat message during a consultation keeps its intake and appends
      to its transcript. */
  lemma SendExtends(st: Store, text: string, complete: Oracle)
    requires Active(st)
    ensures Continues(st, SendStep(st, text, complete).store)
  {
    var h := st[HistoryKey].messages;
    var r := SendStep(st, text, complete);
    if text != "" {
      var asked := h + [Message(User, text)];
      assert r.store[HistoryKey].messages == asked + [Message(Assistant, complete(ToOpenAI(asked)))];
      assert h <= asked;
    }
  }

  /** Short of "Start Over", an action in a consultation keeps its intake
      and only appends to its transcript. */
  lemma RerunKeepsConsultation(st: Store, e: Event, complete: Oracle)
    requires Active(st) && e != StartOverClicked
    ensures Continues(st, RerunStep(st, e, complete).store)
  {
    match e
    case FormSubmitted(f) =>
      assert RerunStep(st, e, complete) == Step(st, []);
    case ChatEntered(text) =>
      assert RerunStep(st, e, complete) == SendStep(st, text, complete);
      SendExtends(st, text, complete);
    case NoInput =>
  }

  /** A sequence of page runs; the requests of all runs, in order. */
  function RunAll(st: Store, es: seq<Event>, complete: Oracle): Step
    requires Inv(st)
    decreases |es|
  {
    if es == [] then Step(st, [])
    else
      RerunKeepsInv(st, es[0], complete);
      var first := RerunStep(st, es[0], complete);
      var rest := RunAll(first.store, es[1..], complete);
      Step(rest.store, first.requests + rest.requests)
  }

  /** Over any number of runs the session stays in a reachable state, the
      other keys are untouched, and every request is well formed. */
  lemma {:induction false} RunAllPreservesInv(st: Store, es: seq<Event>, complete: Oracle)
    requires Inv(st)
    ensures var r := RunAll(st, es, complete);
      Inv(r.store) && Others(r.store) == Others(st) && WellFormedRequests(r.requests)
    decreases |es|
  {
    if es != [] {
      RerunKeepsInv(st, es[0], complete);
      var first := RerunStep(st, es[0], complete);
      RunAllPreservesInv(first.store, es[1..], complete);
    }
  }

  /** Until "Start Over" is pressed, a consultation keeps its intake and its
      transcript only grows: every earlier entry stays where it was. */
  lemma {:induction false} TranscriptOnlyGrows(st: Store, es: seq<Event>, complete: Oracle)
    requires Active(st)
    requires forall k :: 0 <= k < |es| ==> es[k] != StartOverClicked
    ensures Continues(st, RunAll(st, es, complete).store)
    decreases |es|
  {
    if es != [] {
      RerunKeepsConsultation(st, es[0], complete);
      var first := RerunStep(st, es[0], complete);
      TranscriptOnlyGrows(first.store, es[1..], complete);
      RunAllCons(st, es[0], es[1..], complete);
      assert [es[0]] + es[1..] == es;
    }
  }

  /** Starting over and submitting again opens a fresh two-entry transcript
      for the new intake: nothing of the earlier consultation remains. */
  lemma StartOverThenSubmit(st: Store, f: Intake, complete: Oracle)
    requires Active(st) && Accepted(f)
    ensures var r := RunAll(st, [StartOverClicked, FormSubmitted(f)], complete);
      Active(r.store) && r.store[UserDataKey] == UserData(f) &&
      |r.store[HistoryKey].messages| == 2 &&
      r.store[HistoryKey].messages[0] == Message(User, Summary(f)) &&
      r.requests == [[Message(User, InitialPrompt(f))]]
  {
    StartOverThenSubmitRuns(st, f, complete);
  }

  /** The two runs amount to a submission into the cleared dictionary. */
  lemma StartOverThenSubmitRuns(st: Store, f: Intake, complete: Oracle)
    requires Active(st)
    ensures RunAll(st, [StartOverClicked, FormSubmitted(f)], complete) == SubmitStep(ResetStore(st), f, complete)
  {
    RunAllStartOver(st, [FormSubmitted(f)], complete);
    RunAllSubmit(ResetStore(st), f, complete);
    assert [StartOverClicked] + [FormSubmitted(f)] == [StartOverClicked, FormSubmitted(f)];
  }

  /** "Start Over" in a consultation sends nothing, and the runs after it
      proceed from the cleared dictionary. */
  lemma RunAllStartOver(st: Store, es: seq<Event>, complete: Oracle)
    requires Active(st)
    ensures RunAll(st, [StartOverClicked] + es, complete) == RunAll(ResetStore(st), es, complete)
  {
    RunAllCons(st, StartOverClicked, es, complete);
    assert RerunStep(st, StartOverClicked, complete) == Step(ResetStore(st), []);
    var rest := RunAll(ResetStore(st), es, complete);
    assert [] + rest.requests == rest.requests;
  }

  /** A run followed by more runs: the later runs start from the first
      run's dictionary, and its requests come first. */
  lemma RunAllCons(st: Store, e: Event, es: seq<Event>, complete: Oracle)
    requires Inv(st)
    ensures Inv(RerunStep(st, e, complete).store)
    ensures var first := RerunStep(st, e, complete);
      var rest := RunAll(first.store, es, complete);
      RunAll(st, [e] + es, complete) == Step(rest.store, first.requests + rest.requests)
  {
    RerunKeepsInv(st, e, complete);
    assert ([e] + es)[0] == e && ([e] + es)[1..] == es;
  }

  /** A run that submits the form is one submission step while the form is
      offered, and changes nothing once an intake is stored. */
  lemma RunAllSubmit(st: Store, f: Intake, complete: Oracle)
    requires Inv(st)
    ensures FormOffered(st) ==> RunAll(st, [FormSubmitted(f)], complete) == SubmitStep(st, f, complete)
    ensures !FormOffered(st) ==> RunAll(st, [FormSubmitted(f)], complete) == Step(st, [])
  {
    var s1 := RerunStep(st, FormSubmitted(f), complete);
    RerunKeepsInv(st, FormSubmitted(f), complete);
    assert [FormSubmitted(f)][1..] == [];
    assert s1.requests + [] == s1.requests;
  }

  /** The first call sees the instruction prompt and nothing else; the
      transcript keeps the summary in its place, never the prompt. */
  lemma FirstCallSeesOnlyPrompt(st: Store, f: Intake, complete: Oracle)
    requires Accepted(f)
    ensures var r := SubmitStep(st, f, complete);
      |r.requests| == 1 && r.requests[0] == [Message(User, InitialPrompt(f))] &&
      Message(User, Summary(f)) !in r.requests[0] &&
      Message(User, InitialPrompt(f)) !in r.store[HistoryKey].messages
  {
    SummaryIsNotPrompt(f);
    var r := SubmitStep(st, f, complete);
    var h := r.store[HistoryKey].messages;
    assert h[1].role == Assistant;
  }

  /** The page's session dictionary, changed in place by the page's
      actions; `requests` records every message list passed to the
      completion service. */
  class Session {
    var state: Store
    ghost var requests: seq<seq<Message>>

    /** A new browser session: nothing stored, nothing asked. */
    constructor ()
      ensures state == map[] && Idle(state) && requests == []
    {
      state := map[];
      requests := [];
    }

    /** `symptom_form` after "Start Consultation": check the fields, then
        write the intake, set the flag, empty the transcript, append the
        summary, ask for the first reply and append it. */
    method Submit(f: Intake, complete: Oracle) returns (verdict: Verdict)
      modifies this
      ensures verdict == Validate(f.age, f.symptoms)
      ensures var r := SubmitStep(old(state), f, complete);
        state == r.store && requests == old(requests) + r.requests
    {
      verdict := Validate(f.age, f.symptoms);
      if verdict.Reject? {
        return;
      }
      state := state[UserDataKey := UserData(f)];
      state := state[StartedKey := Flag(true)];
      state := state[HistoryKey := History([])];
      var prompt := InitialPrompt(f);
      var summary := Summary(f);
      state := state[HistoryKey := History(state[HistoryKey].messages + [Message(User, summary)])];
      var first := [Message(User, prompt)];
      var reply := GetResponse(complete, first);
      requests := requests + [first];
      state := state[HistoryKey := History(state[HistoryKey].messages + [Message(Assistant, reply)])];
      assert [] + [Message(User, summary)] + [Message(Assistant, reply)]
          == [Message(User, summary), Message(Assistant, reply)];
      assert state == old(state)[UserDataKey := UserData(f)][StartedKey := Flag(true)]
                      [HistoryKey := History([Message(User, summary), Message(Assistant, reply)])];
    }

    /** The chat box: append the user's message, ask with the whole
        transcript, append the reply. */
    method SendMessage(text: string, complete: Oracle)
      requires HasHistory(state)
      modifies this
      ensures var r := SendStep(old(state), text, complete);
        state == r.store && requests == old(requests) + r.requests
    {
      if text == "" {
        return;
      }
      state := state[HistoryKey := History(state[HistoryKey].messages + [Message(User, text)])];
      var asked := state[HistoryKey].messages;
      var reply := GetResponse(complete, asked);
      requests := requests + [asked];
      state := state[HistoryKey := History(state[HistoryKey].messages + [Message(Assistant, reply)])];
    }

    /** "Start Over": delete each of the three keys that is present. */
    method StartOver()
      modifies this
      ensures state == ResetStore(old(state)) && requests == old(requests)
    {
      var i := 0;
      while i < |SessionKeys|
        invariant 0 <= i <= |SessionKeys|
        invariant state == old(state) - (set k | k in SessionKeys[..i])
        invariant requests == old(requests)
      {
        var key := SessionKeys[i];
        if key in state {
          state := state - {key};
        }
        i := i + 1;
      }
      assert SessionKeys[..i] == [UserDataKey, StartedKey, HistoryKey];
      assert (set k | k in SessionKeys[..i]) == {UserDataKey, StartedKey, HistoryKey};
    }

    /** One run of the page script with its one user action. */
    method Rerun(e: Event, complete: Oracle)
      requires Inv(state)
      modifies this
      ensures var r := RerunStep(old(state), e, complete);
        state == r.store && requests == old(requests) + r.requests
      ensures Inv(state)
    {
      match e
      case FormSubmitted(f) =>
        if FormOffered(state) {
          var _ := Submit(f, complete);
        }
      case ChatEntered(text) =>
        if Started(state) {
          SendMessage(text, complete);
        }
      case StartOverClicked =>
        if Started(state) {
          StartOver();
        }
      case NoInput =>
    }
  }
}
