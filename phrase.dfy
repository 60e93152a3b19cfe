/**
 * The line of the queue ticket that tells the customer how many people are
 * ahead of them. A falsy queue length (absent or 0) reads "non ci sono
 * persone", exactly 1 reads "c'e' una persona", anything else reads
 * "ci sono N persone".
 */
module Phrase {
  import opened Wrappers
  import opened Decimal

  const Lead := "Davanti a te "
  const NobodyAhead := "Davanti a te non ci sono persone"
  const OneAhead := "Davanti a te c'e' una persona"
  const ManyLead := "Davanti a te ci sono "
  const ManyTail := " persone"

  /** JavaScript truthiness of the optional number: absent and 0 are falsy. */
  predicate IsFalsy(queueLength: Option<int>) {
    queueLength == None || queueLength == Some(0)
  }

  /** The number of people the phrase is meant to announce. */
  function Ahead(queueLength: Option<int>): int {
    if queueLength.None? then 0 else queueLength.value
  }

  function QueuePhrase(queueLength: Option<int>): (r: string)
    ensures |r| > |Lead| && r[..|Lead|] == Lead
  {
    Lead + (if IsFalsy(queueLength) then "non ci sono persone"
            else if queueLength.value == 1 then "c'e' una persona"
            else "ci sono " + IntToString(queueLength.value) + " persone")
  }

  /** Reads the number of people back from a phrase; None for any other text. */
  function ReadPhrase(phrase: string): Option<int> {
    if phrase == NobodyAhead then Some(0)
    else if phrase == OneAhead then Some(1)
    else if |phrase| >= |ManyLead| + |ManyTail|
            && phrase[..|ManyLead|] == ManyLead
            && phrase[|phrase| - |ManyTail|..] == ManyTail
    then ParseInt(phrase[|ManyLead|..|phrase| - |ManyTail|])
    else None
  }

  /** A queue length that is neither falsy nor 1 is announced as a count. */
  predicate IsCount(queueLength: Option<int>) {
    !IsFalsy(queueLength) && queueLength != Some(1)
  }

  lemma CountPhraseShape(queueLength: Option<int>)
    requires IsCount(queueLength)
    ensures QueuePhrase(queueLength) == ManyLead + IntToString(queueLength.value) + ManyTail
  {
    var digits := IntToString(queueLength.value);
    assert QueuePhrase(queueLength) == Lead + ("ci sono " + digits + " persone");
  }

  lemma FalsyPhrase(queueLength: Option<int>)
    requires IsFalsy(queueLength)
    ensures QueuePhrase(queueLength) == NobodyAhead
  {
  }

  lemma OnePhrase()
    ensures QueuePhrase(Some(1)) == OneAhead
  {
  }

  /** The three cases, each in both directions. */
  lemma QueuePhraseCases(queueLength: Option<int>)
    ensures IsFalsy(queueLength) <==> QueuePhrase(queueLength) == NobodyAhead
    ensures queueLength == Some(1) <==> QueuePhrase(queueLength) == OneAhead
    ensures IsCount(queueLength) ==>
              QueuePhrase(queueLength) == ManyLead + IntToString(queueLength.value) + ManyTail
  {
    if IsFalsy(queueLength) {
      FalsyPhrase(queueLength);
      assert NobodyAhead[14] != OneAhead[14];
    } else if queueLength == Some(1) {
      OnePhrase();
      assert NobodyAhead[14] != OneAhead[14];
    } else {
      CountPhraseShape(queueLength);
      // The three wordings differ at index 14, the character after "Davanti a te ".
      assert QueuePhrase(queueLength)[14] == ManyLead[14] == 'i';
      assert NobodyAhead[14] == 'o' && OneAhead[14] == '\'';
    }
  }

  /** The phrase announces exactly the queue length it was made from. */
  lemma ReadQueuePhrase(queueLength: Option<int>)
    ensures ReadPhrase(QueuePhrase(queueLength)) == Some(Ahead(queueLength))
  {
    QueuePhraseCases(queueLength);
    if IsCount(queueLength) {
      var n := queueLength.value;
      var p := QueuePhrase(queueLength);
      var digits := IntToString(n);
      assert p == ManyLead + digits + ManyTail;
      assert p[..|ManyLead|] == ManyLead;
      assert p[|p| - |ManyTail|..] == ManyTail;
      assert p[|ManyLead|..|p| - |ManyTail|] == digits;
      IntToStringRoundTrip(n);
    }
  }

  /** Two queue lengths give the same phrase exactly when they announce the same count. */
  lemma QueuePhraseInjective(a: Option<int>, b: Option<int>)
    ensures QueuePhrase(a) == QueuePhrase(b) <==> Ahead(a) == Ahead(b)
  {
    ReadQueuePhrase(a);
    ReadQueuePhrase(b);
    if Ahead(a) == Ahead(b) {
      assert IsFalsy(a) <==> IsFalsy(b);
    }
  }
}
