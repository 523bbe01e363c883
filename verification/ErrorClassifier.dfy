/** libs/gas/src/error-classifier.ts: which failures are worth retrying. */
module ErrorClassifier {
  import opened Base
  import opened Text

  const RETRYABLE_MARKS := ["timeout", "network", "econnrefused", "eai_again", "socket hang up"]
  const PERMANENT_MARKS := [
    "insufficient funds", "nonce too low", "nonce too high",
    "replacement transaction underpriced", "already known", "intrinsic gas too low"]

  predicate Mentions(message: string, marks: seq<string>) {
    exists i :: 0 <= i < |marks| && Contains(message, marks[i])
  }

  /** Retryable marks win over permanent ones. */
  function Classify(message: string): ErrorType {
    var lowered := Lower(message);
    if Mentions(lowered, RETRYABLE_MARKS) then Retryable
    else if Mentions(lowered, PERMANENT_MARKS) then Permanent
    else Unknown
  }

  /** Which messages fall into which class, whatever their letter case. */
  lemma ClassifiesExactly(message: string)
    ensures var m := Lower(message);
            var retryable := Contains(m, "timeout") || Contains(m, "network") || Contains(m, "econnrefused")
                             || Contains(m, "eai_again") || Contains(m, "socket hang up");
            var permanent := Contains(m, "insufficient funds") || Contains(m, "nonce too low")
                             || Contains(m, "nonce too high") || Contains(m, "replacement transaction underpriced")
                             || Contains(m, "already known") || Contains(m, "intrinsic gas too low");
            Classify(message) == if retryable then Retryable else if permanent then Permanent else Unknown
  {
    hide Contains;
    var m := Lower(message);
    assert Mentions(m, RETRYABLE_MARKS) <==>
        Contains(m, RETRYABLE_MARKS[0]) || Contains(m, RETRYABLE_MARKS[1]) || Contains(m, RETRYABLE_MARKS[2])
        || Contains(m, RETRYABLE_MARKS[3]) || Contains(m, RETRYABLE_MARKS[4]);
    assert Mentions(m, PERMANENT_MARKS) <==>
        Contains(m, PERMANENT_MARKS[0]) || Contains(m, PERMANENT_MARKS[1]) || Contains(m, PERMANENT_MARKS[2])
        || Contains(m, PERMANENT_MARKS[3]) || Contains(m, PERMANENT_MARKS[4]) || Contains(m, PERMANENT_MARKS[5]);
  }

  lemma ContainsWrapped(before: string, message: string, after: string, piece: string)
    requires Contains(message, piece)
    ensures Contains(before + message + after, piece)
  {
    var i: nat :| i <= |message| && MatchesAt(message, piece, i);
    var whole := before + message + after;
    assert whole[|before| + i..|before| + i + |piece|] == message[i..i + |piece|];
    assert MatchesAt(whole, piece, |before| + i);
  }

  /** Wrapping a message, as `RPC error [method]: ...` does, never hides what it says: a
      retryable failure stays retryable, and a permanent one does not become unknown. */
  lemma WrappingKeepsClass(before: string, message: string, after: string)
    ensures Classify(message) == Retryable ==> Classify(before + message + after) == Retryable
    ensures Classify(message) == Permanent ==> Classify(before + message + after) != Unknown
  {
    var lowered := Lower(message);
    assert Lower(before + message + after) == Lower(before) + lowered + Lower(after);
    MentionsWrapped(Lower(before), lowered, Lower(after), RETRYABLE_MARKS);
    MentionsWrapped(Lower(before), lowered, Lower(after), PERMANENT_MARKS);
  }

  lemma MentionsWrapped(before: string, message: string, after: string, marks: seq<string>)
    ensures Mentions(message, marks) ==> Mentions(before + message + after, marks)
  {
    if i :| 0 <= i < |marks| && Contains(message, marks[i]) {
      ContainsWrapped(before, message, after, marks[i]);
    }
  }
}
