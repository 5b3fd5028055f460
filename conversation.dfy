/**
 * The conversation store's records: messages and the results derived from
 * them, with the store's de-duplication invariant.
 */
module Conversation {
  import opened Provider

  /** `{ type: "translation", content, targetLanguage }` or `{ type: "summary", content }`. */
  datatype Processed =
    | Translation(content: string, targetLanguage: string)
    | Summary(content: string)

  /** `{ id, text, language, processed }`. */
  datatype Message = Message(id: int, text: string, language: string, processed: seq<Processed>)

  /**
   * What a translate handler captures before its `await`: the message id,
   * its text and language, and the language selected when it was called.
   */
  datatype TranslateRequest = TranslateRequest(id: int, text: string, source: string, target: string)

  /** Two results that one message may not hold together. */
  predicate SameSlot(a: Processed, b: Processed) {
    || (a.Translation? && b.Translation? && a.targetLanguage == b.targetLanguage)
    || (a.Summary? && b.Summary?)
  }

  /** At most one translation per target language and at most one summary. */
  predicate DuplicateFree(p: seq<Processed>) {
    forall i, j :: 0 <= i < j < |p| ==> !SameSlot(p[i], p[j])
  }

  /** Every message of the store is duplicate-free. */
  predicate StoreDuplicateFree(ms: seq<Message>) {
    forall k :: 0 <= k < |ms| ==> DuplicateFree(ms[k].processed)
  }

  /**
   * `processed.some((p) => p.type === "translation" && p.targetLanguage === target)`:
   * false exactly when a translation into `target` clashes with nothing stored.
   */
  function HasTranslation(p: seq<Processed>, target: string): (r: bool)
    ensures !r <==> forall c, i :: 0 <= i < |p| ==> !SameSlot(p[i], Translation(c, target))
  {
    exists i :: 0 <= i < |p| && p[i].Translation? && p[i].targetLanguage == target
  }

  /**
   * `processed.some((p) => p.type === "summary")`: false exactly when a summary
   * clashes with nothing stored.
   */
  function HasSummary(p: seq<Processed>): (r: bool)
    ensures !r <==> forall c, i :: 0 <= i < |p| ==> !SameSlot(p[i], Summary(c))
  {
    exists i :: 0 <= i < |p| && p[i].Summary?
  }

  /** `messages.find((m) => m.id === id)`, as the position of the first match. */
  function FindIndex(ms: seq<Message>, id: int): (r: Option<nat>)
    ensures r.Some? ==> r.value < |ms| && ms[r.value].id == id
    ensures r.Some? ==> forall j :: 0 <= j < r.value ==> ms[j].id != id
    ensures r.None? <==> forall j :: 0 <= j < |ms| ==> ms[j].id != id
  {
    if ms == [] then None
    else if ms[0].id == id then Some(0)
    else match FindIndex(ms[1..], id)
      case None => None
      case Some(k) => Some(k + 1)
  }

  /** Appending a result that clashes with none already present keeps the list duplicate-free. */
  lemma AppendKeepsDuplicateFree(p: seq<Processed>, x: Processed)
    requires DuplicateFree(p)
    requires forall i :: 0 <= i < |p| ==> !SameSlot(p[i], x)
    ensures DuplicateFree(p + [x])
  {
    var q := p + [x];
    forall i, j | 0 <= i < j < |q| ensures !SameSlot(q[i], q[j]) {
      if j == |p| {
        assert q[i] == p[i] && q[j] == x;
      } else {
        assert q[i] == p[i] && q[j] == p[j];
      }
    }
  }

  /** In a duplicate-free list a target language names at most one translation. */
  lemma UniqueTranslation(p: seq<Processed>, target: string, i: int, j: int)
    requires DuplicateFree(p)
    requires 0 <= i < |p| && p[i].Translation? && p[i].targetLanguage == target
    requires 0 <= j < |p| && p[j].Translation? && p[j].targetLanguage == target
    ensures i == j
  {
    if i < j {
      assert SameSlot(p[i], p[j]);
    } else if j < i {
      assert SameSlot(p[j], p[i]);
    }
  }
}
