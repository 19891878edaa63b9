/** The handlers built on a confirmed save: commands/hibernate.py and commands/save.py. */
module Handlers {
  import opened Wrappers
  import opened Commands
  import opened SaveExecution

  /** The part of the command's configuration these handlers read; a missing or malformed one is `None`. */
  datatype Config = Config(skipSave: bool, network: string)

  function Network(config: Option<Config>): string {
    if config.Some? then config.value.network else ""
  }

  predicate SkipsSave(config: Option<Config>) {
    config.Some? && config.value.skipSave
  }

  /** What the deleteContainer call does. */
  datatype Deletion = Deleted | DeleteRefused(error: string) | DeleteRaised(error: string)

  /** The result dictionary: empty, or the saved image with the pod it came from. */
  datatype SaveResult = Nothing | Saved(image: string, pod: string, namespace: string)

  /** Lower-case, for ASCII letters: no other character lowers to a letter of the words looked for below. */
  function Lower(s: string): string {
    seq(|s|, i requires 0 <= i < |s| => if 'A' <= s[i] <= 'Z' then s[i] + ' ' else s[i])
  }

  predicate Contains(text: string, word: string) {
    exists i :: 0 <= i <= |text| && StartsAt(text, word, i)
  }

  predicate StartsAt(text: string, word: string, i: int)
    requires 0 <= i <= |text|
  {
    word <= text[i..]
  }

  /** The text test for a pod that is already gone. */
  predicate AlreadyGone(error: string) {
    var text := Lower(error);
    Contains(text, "404") || Contains(text, "not found") || Contains(text, "notfound")
  }

  /** The character of the text is this letter or digit of the word, or its capital. */
  predicate Reads(c: char, letter: char) {
    c == letter || ('A' <= c <= 'Z' && c as int + 32 == letter as int)
  }

  ghost predicate WordAt(text: string, word: string, i: nat) {
    i + |word| <= |text| && forall k: nat :: k < |word| ==> Reads(text[i + k], word[k])
  }

  /** The text names a missing pod exactly if one of the three words stands somewhere in it, in small or capital letters. */
  lemma AlreadyGoneExactly(error: string)
    ensures AlreadyGone(error) <==>
            exists i: nat :: WordAt(error, "404", i) || WordAt(error, "not found", i) || WordAt(error, "notfound", i)
  {
    forall i: nat | i <= |error|
      ensures StartsAt(Lower(error), "404", i) <==> WordAt(error, "404", i)
      ensures StartsAt(Lower(error), "not found", i) <==> WordAt(error, "not found", i)
      ensures StartsAt(Lower(error), "notfound", i) <==> WordAt(error, "notfound", i)
    {
      StartsExactly(error, "404", i);
      StartsExactly(error, "not found", i);
      StartsExactly(error, "notfound", i);
    }
  }

  lemma StartsExactly(error: string, word: string, i: nat)
    requires i <= |error| && forall k: nat :: k < |word| ==> !('A' <= word[k] <= 'Z')
    ensures StartsAt(Lower(error), word, i) <==> WordAt(error, word, i)
  {
    var text := Lower(error);
    if StartsAt(text, word, i) {
      forall k: nat | k < |word| ensures Reads(error[i + k], word[k]) {
        assert text[i..][k] == text[i + k] == word[k];
      }
    }
    if WordAt(error, word, i) {
      forall k: nat | k < |word| ensures text[i..][k] == word[k] {
        assert Reads(error[i + k], word[k]);
      }
      assert text[i..][..|word|] == word;
    }
  }

  function AfterSaveMessage(image: string, detail: string): string {
    "saved_image=" + image + " detail=" + detail
  }

  /** Before call `i` of the trace, Cloud confirmed this very save, with this image. */
  ghost predicate ConfirmedBefore(trace: seq<Call>, i: nat, container: string, request: string, image: string) {
    exists j :: 0 <= j < i < |trace| && ConfirmedAt(trace[j], container, request, image)
  }

  predicate ConfirmedAt(call: Call, container: string, request: string, image: string) {
    && call.PollCall? && call.container == container && call.request == request
    && call.reply.Status? && call.reply.status == Some("Succeeded") && call.reply.image == Some(image) && image != ""
  }

  /** The save part of the world's answers ends in a confirmation. */
  ghost predicate SaveConfirmed(w: World, timeout: real) {
    w.trigger.Pod? && exists i: nat, image :: ConfirmedInTime(w, timeout, i, image)
  }

  function SaveErrorCode(timedOut: bool): string {
    if timedOut then "SNAPSHOT_TIMED_OUT" else "SNAPSHOT_FAILED"
  }

  /** The error text of a save that was not confirmed: the trigger's, Cloud's, or that there was no answer. */
  ghost predicate SaysWhy(message: string, w: World, trace: seq<Call>, default: string) {
    match w.trigger
    case TriggerFailed(error) => message == if error == "" then default else error
    case TriggerRaised(_) => false
    case NoPods => message == "Snapshot trigger returned no pod information"
    case Pod(_, _) =>
      && trace != [] && trace[|trace| - 1].PollCall?
      && var reply := trace[|trace| - 1].reply;
         message == if Undecided(reply) then "Timed out waiting for snapshot confirmation"
                    else if reply.errorDetail.Some? && reply.errorDetail.value != "" then reply.errorDetail.value
                    else "Snapshot reported failed"
  }

  /** One save call, and then polls for that very save, and nothing else. */
  ghost predicate SavesThenPolls(trace: seq<Call>, container: string, network: string, request: string) {
    && trace != [] && trace[0] == SaveCall(container, network, request)
    && forall i :: 1 <= i < |trace| ==> trace[i].PollCall? && trace[i].container == container && trace[i].request == request
  }

  /** The Save handler: it succeeds exactly on a confirmed save, and never deletes anything. */
  method HandleSave(container: string, request: string, config: Option<Config>, w: World, timeout: real, ghost horizon: nat)
    returns (outcome: Outcome<SaveResult>, trace: seq<Call>)
    requires w.trigger.Pod? ==> StopsAt(w, timeout, horizon)
    ensures SavesThenPolls(trace, container, if config.Some? then config.value.network else "", request)
    ensures outcome.Returned? <==> SaveConfirmed(w, timeout)
    ensures outcome.Returned? ==>
              && trace != [] && w.trigger.Pod? && outcome.result.Saved? && outcome.result.pod == w.trigger.name && outcome.result.namespace == w.trigger.namespace
              && ConfirmedAt(trace[|trace| - 1], container, request, outcome.result.image)
    ensures outcome.Raised? <==> w.trigger.TriggerRaised?
    ensures WithinBound(w, timeout, |trace| - 2)
    ensures outcome.Raised? ==> outcome.message == w.trigger.error
    ensures outcome.Rejected? ==>
              outcome.code == if w.trigger.Pod? && forall i: nat :: !FirstDecisive(w, timeout, i) then "SNAPSHOT_TIMED_OUT" else "SNAPSHOT_FAILED"
    ensures outcome.Rejected? ==> SaysWhy(outcome.message, w, trace, "Save failed")
  {
    var save;
    save, trace := PerformSave(w, container, Network(config), request, timeout, horizon);
    SaveTraceFacts(trace, w, container, request);
    if w.trigger.Pod? {
      SaveVerdictExactly(w, timeout, |trace| - 2);
    }
    if save.SaveRaised? {
      return Raised(save.message), trace;
    }
    if !save.succeeded {
      return Rejected(SaveErrorCode(save.timedOut), OrDefault(save.error, "Save failed")), trace;
    }
    return Returned(Saved(save.image.value, save.pod.value, save.namespace.value)), trace;
  }

  lemma SaveTraceFacts(trace: seq<Call>, w: World, container: string, request: string)
    requires trace != [] && trace[0].SaveCall? && PollTrace(trace[1..], w, container, request)
    ensures forall i :: 1 <= i < |trace| ==> trace[i] == PollCall(container, request, w.polls(i - 1))
  {
    forall i | 1 <= i < |trace| ensures trace[i] == PollCall(container, request, w.polls(i - 1)) {
      assert trace[1..][i - 1] == trace[i];
    }
  }

  /** The `skip_save` path: the only call is the deletion, and a pod that is already gone counts as deleted. */
  method HibernateWithoutSave(container: string, request: string, config: Option<Config>, deletion: Deletion)
    returns (outcome: Outcome<SaveResult>, trace: seq<Call>)
    ensures trace == [DeleteCall(container, if config.Some? then config.value.network else "", request)]
    ensures outcome.Returned? <==> deletion.Deleted? || (deletion.DeleteRefused? && AlreadyGone(deletion.error))
    ensures outcome.Returned? ==> outcome.result == Nothing
    ensures outcome.Rejected? ==> outcome.code == "POD_DELETE_FAILED" && deletion.DeleteRefused? && outcome.message == deletion.error
    ensures outcome.Raised? <==> deletion.DeleteRaised?
    ensures outcome.Raised? ==> outcome.message == deletion.error
  {
    trace := [DeleteCall(container, Network(config), request)];
    match deletion
    case Deleted => outcome := Returned(Nothing);
    case DeleteRaised(error) => outcome := Raised(error);
    case DeleteRefused(error) =>
      outcome := if AlreadyGone(error) then Returned(Nothing) else Rejected("POD_DELETE_FAILED", error);
  }

  /** The first call is the save. */
  ghost predicate SavesFirst(trace: seq<Call>, container: string, network: string, request: string) {
    trace != [] && trace[0] == SaveCall(container, network, request) && forall i :: 1 <= i < |trace| ==> !trace[i].SaveCall?
  }

  /** No deletion, or exactly one, as the last call and after this save's confirmation with this image. */
  ghost predicate DeletesOnlyConfirmed(trace: seq<Call>, container: string, network: string, request: string) {
    forall i :: 0 <= i < |trace| && trace[i].DeleteCall? ==>
      && i == |trace| - 1 && trace[i] == DeleteCall(container, network, request)
      && exists image :: ConfirmedBefore(trace, i, container, request, image)
  }

  ghost predicate Deletes(trace: seq<Call>) {
    exists i :: 0 <= i < |trace| && trace[i].DeleteCall?
  }

  /**
    Save, confirm, delete: the pod is deleted exactly when the save was confirmed, once, as the last
    call, after the confirmation; success carries the confirmed image and its pod.
   */
  method HibernateWithSave(container: string, network: string, request: string, w: World, timeout: real,
                           deletion: Deletion, ghost horizon: nat)
    returns (outcome: Outcome<SaveResult>, trace: seq<Call>)
    requires w.trigger.Pod? ==> StopsAt(w, timeout, horizon)
    ensures SavesFirst(trace, container, network, request) && DeletesOnlyConfirmed(trace, container, network, request)
    ensures SaveConfirmed(w, timeout) <==> Deletes(trace)
    ensures WithinBound(w, timeout, |trace| - 3)
    ensures outcome.Returned? <==> SaveConfirmed(w, timeout) && deletion.Deleted?
    ensures outcome.Returned? ==>
              && w.trigger.Pod? && outcome.result.Saved? && outcome.result.pod == w.trigger.name && outcome.result.namespace == w.trigger.namespace
              && ConfirmedBefore(trace, |trace| - 1, container, request, outcome.result.image)
    ensures outcome.Rejected? ==>
              outcome.code == if SaveConfirmed(w, timeout) then "POD_DELETE_FAILED_AFTER_SAVE"
                              else if w.trigger.Pod? && forall i: nat :: !FirstDecisive(w, timeout, i) then "SNAPSHOT_TIMED_OUT"
                              else "SNAPSHOT_FAILED"
    ensures outcome.Rejected? && !SaveConfirmed(w, timeout) ==> SaysWhy(outcome.message, w, trace, "Snapshot failed")
    ensures outcome.Raised? <==> w.trigger.TriggerRaised? || (SaveConfirmed(w, timeout) && deletion.DeleteRaised?)
  {
    var save;
    save, trace := PerformSave(w, container, network, request, timeout, horizon);
    SaveTraceFacts(trace, w, container, request);
    NoDeletionYet(trace, container, network, request);
    if w.trigger.Pod? {
      SaveVerdictExactly(w, timeout, |trace| - 2);
    }
    if save.SaveRaised? {
      return Raised(save.message), trace;
    }
    if !save.succeeded {
      return Rejected(SaveErrorCode(save.timedOut), OrDefault(save.error, "Snapshot failed")), trace;
    }
    outcome, trace := DeleteSaved(container, network, request, Saved(save.image.value, save.pod.value, save.namespace.value), trace, deletion);
  }

  /** The deletion after a confirmed save. */
  method DeleteSaved(container: string, network: string, request: string, saved: SaveResult, before: seq<Call>, deletion: Deletion)
    returns (outcome: Outcome<SaveResult>, trace: seq<Call>)
    requires saved.Saved? && SavesThenPolls(before, container, network, request)
    requires ConfirmedAt(before[|before| - 1], container, request, saved.image)
    ensures |trace| == |before| + 1 && SavesFirst(trace, container, network, request)
    ensures DeletesOnlyConfirmed(trace, container, network, request) && Deletes(trace)
    ensures ConfirmedBefore(trace, |trace| - 1, container, request, saved.image)
    ensures if deletion.Deleted? then outcome == Returned(saved) else !outcome.Returned?
    ensures deletion.DeleteRefused? ==> outcome.Rejected? && outcome.code == "POD_DELETE_FAILED_AFTER_SAVE"
    ensures deletion.DeleteRefused? ==> outcome.message == "saved_image=" + saved.image + " detail=" + deletion.error
    ensures deletion.DeleteRaised? ==> outcome == Raised(deletion.error)
  {
    DeleteAfterConfirmation(before, container, network, request, saved.image);
    trace := before + [DeleteCall(container, network, request)];
    match deletion
    case Deleted => outcome := Returned(saved);
    case DeleteRefused(error) => outcome := Rejected("POD_DELETE_FAILED_AFTER_SAVE", AfterSaveMessage(saved.image, error));
    case DeleteRaised(error) => outcome := Raised(error);
  }

  /**
    The Hibernate handler: save, confirm, delete, unless its configuration says to skip the save; if
    it does, the only call is the deletion.
   */
  method HandleHibernate(container: string, request: string, config: Option<Config>, w: World, timeout: real,
                         deletion: Deletion, ghost horizon: nat)
    returns (outcome: Outcome<SaveResult>, trace: seq<Call>)
    requires (config.None? || !config.value.skipSave) && w.trigger.Pod? ==> StopsAt(w, timeout, horizon)
    ensures config.Some? && config.value.skipSave ==>
              && trace == [DeleteCall(container, config.value.network, request)]
              && (outcome.Returned? <==> deletion.Deleted? || (deletion.DeleteRefused? && AlreadyGone(deletion.error)))
              && (outcome.Returned? ==> outcome.result == Nothing)
    ensures config.None? || !config.value.skipSave ==>
              && SavesFirst(trace, container, if config.Some? then config.value.network else "", request)
              && DeletesOnlyConfirmed(trace, container, if config.Some? then config.value.network else "", request)
              && (SaveConfirmed(w, timeout) <==> Deletes(trace))
              && WithinBound(w, timeout, |trace| - 3)
    ensures config.None? || !config.value.skipSave ==> (outcome.Returned? <==> SaveConfirmed(w, timeout) && deletion.Deleted?)
    ensures (config.None? || !config.value.skipSave) && outcome.Returned? ==>
              && w.trigger.Pod? && outcome.result.Saved? && outcome.result.pod == w.trigger.name && outcome.result.namespace == w.trigger.namespace
              && ConfirmedBefore(trace, |trace| - 1, container, request, outcome.result.image)
    ensures (config.None? || !config.value.skipSave) && outcome.Rejected? ==>
              outcome.code == if SaveConfirmed(w, timeout) then "POD_DELETE_FAILED_AFTER_SAVE"
                              else if w.trigger.Pod? && forall i: nat :: !FirstDecisive(w, timeout, i) then "SNAPSHOT_TIMED_OUT"
                              else "SNAPSHOT_FAILED"
    ensures (config.None? || !config.value.skipSave) && outcome.Rejected? && !SaveConfirmed(w, timeout) ==>
              SaysWhy(outcome.message, w, trace, "Snapshot failed")
  {
    if SkipsSave(config) {
      outcome, trace := HibernateWithoutSave(container, request, config, deletion);
    } else {
      outcome, trace := HibernateWithSave(container, Network(config), request, w, timeout, deletion, horizon);
    }
  }

  lemma NoDeletionYet(saved: seq<Call>, container: string, network: string, request: string)
    requires forall i :: 1 <= i < |saved| ==> saved[i].PollCall?
    requires saved != [] && saved[0].SaveCall?
    ensures DeletesOnlyConfirmed(saved, container, network, request) && !Deletes(saved)
  {
  }

  lemma DeleteAfterConfirmation(saved: seq<Call>, container: string, network: string, request: string, image: string)
    requires saved != [] && forall i :: 0 <= i < |saved| ==> !saved[i].DeleteCall?
    requires ConfirmedAt(saved[|saved| - 1], container, request, image)
    ensures var trace := saved + [DeleteCall(container, network, request)];
            && DeletesOnlyConfirmed(trace, container, network, request) && Deletes(trace)
            && ConfirmedBefore(trace, |trace| - 1, container, request, image)
  {
    var trace := saved + [DeleteCall(container, network, request)];
    assert ConfirmedAt(trace[|saved| - 1], container, request, image);
    assert ConfirmedBefore(trace, |trace| - 1, container, request, image);
    assert trace[|saved|].DeleteCall?;
  }
}
