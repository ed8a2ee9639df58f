/**
  * The per-session confirmation state machine: a token is issued for a
  * blocked request and, when the user answers with it, consumed exactly
  * once, handing back the original request.
  */
module Confirmation {
  import opened Text

  datatype PendingConfirmation = PendingConfirmation(token: string, originalMessage: string, createdAt: string)

  /** The `(bool, str)` pair the consume operations return. */
  datatype Answer = Answer(accepted: bool, original: string)

  const Refused: Answer := Answer(false, "")

  /** A lower-case hexadecimal digit, as `secrets.token_hex` produces. */
  predicate IsHexDigit(c: char)
  {
    ('0' <= c <= '9') || ('a' <= c <= 'f')
  }

  /** The shape of a `token_hex(4)` token: eight lower-case hexadecimal digits. */
  predicate IsToken(t: string)
  {
    |t| == 8 && forall i :: 0 <= i < |t| ==> IsHexDigit(t[i])
  }

  const ConfirmPrefix: string := "confirm "

  /** The reply that confirms: `confirm <token>`. */
  function ConfirmReply(token: string): string
  {
    ConfirmPrefix + token
  }

  /** `user_message.strip().lower()`. */
  function Normalize(message: string): string
  {
    Lower(Strip(message))
  }

  /** What `consume_if_valid` answers for the pending table `pending`. */
  function ConsumeIfValidAnswer(pending: map<string, PendingConfirmation>, sessionId: string, message: string): Answer
  {
    if sessionId !in pending then Refused
    else if Normalize(message) == ConfirmReply(pending[sessionId].token) then Answer(true, pending[sessionId].originalMessage)
    else if StartsWith(Normalize(message), ConfirmPrefix) then Answer(true, "")
    else Refused
  }

  /** The pending table after `consume_if_valid`: the entry goes only on an exact match. */
  function ConsumeIfValidAfter(pending: map<string, PendingConfirmation>, sessionId: string, message: string): map<string, PendingConfirmation>
  {
    if sessionId in pending && Normalize(message) == ConfirmReply(pending[sessionId].token)
    then pending - {sessionId}
    else pending
  }

  /** What `consume_token` answers. */
  function ConsumeTokenAnswer(pending: map<string, PendingConfirmation>, sessionId: string, token: string): Answer
  {
    if sessionId in pending && Strip(token) == pending[sessionId].token
    then Answer(true, pending[sessionId].originalMessage)
    else Refused
  }

  /** The pending table after `consume_token`. */
  function ConsumeTokenAfter(pending: map<string, PendingConfirmation>, sessionId: string, token: string): map<string, PendingConfirmation>
  {
    if sessionId in pending && Strip(token) == pending[sessionId].token then pending - {sessionId} else pending
  }

  class ConfirmationManager {
    var pending: map<string, PendingConfirmation>

    /** Every stored token has the shape the random source produces. */
    predicate Valid()
      reads this
    {
      forall s :: s in pending ==> IsToken(pending[s].token)
    }

    constructor()
      ensures pending == map[] && Valid()
    {
      pending := map[];
    }

    /**
      * `create`: record `originalMessage` under a new token for the
      * session, replacing any earlier entry. `token` is what the random
      * source yields and `now` the clock's reading.
      */
    method Create(sessionId: string, originalMessage: string, token: string, now: string) returns (t: string)
      requires Valid() && IsToken(token)
      modifies this
      ensures Valid()
      ensures t == token
      ensures pending == old(pending)[sessionId := PendingConfirmation(token, originalMessage, now)]
    {
      pending := pending[sessionId := PendingConfirmation(token, originalMessage, now)];
      t := token;
    }

    /** `consume_if_valid`. */
    method ConsumeIfValid(sessionId: string, message: string) returns (answer: Answer)
      requires Valid()
      modifies this
      ensures Valid()
      ensures answer == ConsumeIfValidAnswer(old(pending), sessionId, message)
      ensures pending == ConsumeIfValidAfter(old(pending), sessionId, message)
    {
      if sessionId !in pending {
        return Refused;
      }
      var entry := pending[sessionId];
      var normalized := Lower(Strip(message));
      if normalized == ConfirmReply(entry.token) {
        pending := pending - {sessionId};
        return Answer(true, entry.originalMessage);
      }
      if StartsWith(normalized, ConfirmPrefix) {
        return Answer(true, "");
      }
      return Refused;
    }

    /** `has_pending`. */
    function HasPending(sessionId: string): (r: bool)
      reads this
      ensures r <==> sessionId in pending
    {
      sessionId in pending
    }

    /** `pending_token`: the session's token, if it has one. */
    function PendingToken(sessionId: string): (r: string)
      reads this
      requires Valid()
      ensures r == "" <==> sessionId !in pending
      ensures sessionId in pending ==> r == pending[sessionId].token
    {
      if sessionId in pending then pending[sessionId].token else ""
    }

    /** `consume_token`. */
    method ConsumeToken(sessionId: string, token: string) returns (answer: Answer)
      requires Valid()
      modifies this
      ensures Valid()
      ensures answer == ConsumeTokenAnswer(old(pending), sessionId, token)
      ensures pending == ConsumeTokenAfter(old(pending), sessionId, token)
    {
      if sessionId !in pending {
        return Refused;
      }
      var entry := pending[sessionId];
      if Strip(token) == entry.token {
        pending := pending - {sessionId};
        return Answer(true, entry.originalMessage);
      }
      return Refused;
    }
  }

  /** A token is lower case, so upper-casing it in the reply does no harm. */
  lemma TokenIsLower(t: string)
    requires IsToken(t)
    ensures IsLower(t)
  {
  }

  /**
    * The round trip: after a token is issued for a session, the reply
    * `confirm <token>`, in any letter case, is accepted with the original
    * message and removes exactly that session's entry.
    */
  lemma {:induction false} ConfirmRoundTrip(pending: map<string, PendingConfirmation>, sessionId: string, original: string,
                                            token: string, now: string, reply: string)
    requires IsToken(token)
    requires Lower(reply) == ConfirmReply(token)
    ensures var issued := pending[sessionId := PendingConfirmation(token, original, now)];
      ConsumeIfValidAnswer(issued, sessionId, reply) == Answer(true, original)
    ensures var issued := pending[sessionId := PendingConfirmation(token, original, now)];
      ConsumeIfValidAfter(issued, sessionId, reply) == pending - {sessionId}
  {
    var target := ConfirmReply(token);
    assert |reply| == |target| == 16;
    assert LowerChar(reply[0]) == 'c' && LowerChar(reply[15]) == token[7];
    assert !IsSpace(reply[0]) && !IsSpace(reply[15]);
    StripUnspaced(reply);
  }

  /** An entry is consumed at most once: after an accepted reply, the same reply is refused. */
  lemma {:induction false} ConsumedOnce(pending: map<string, PendingConfirmation>, sessionId: string, reply: string)
    requires ConsumeIfValidAnswer(pending, sessionId, reply).original != ""
    ensures sessionId in pending
    ensures sessionId !in ConsumeIfValidAfter(pending, sessionId, reply)
    ensures ConsumeIfValidAnswer(ConsumeIfValidAfter(pending, sessionId, reply), sessionId, reply).original == ""
  {
  }

  /**
    * A confirm-shaped reply with the wrong token is reported as a
    * confirmation attempt but changes nothing, and any other message is
    * refused and changes nothing.
    */
  lemma MismatchKeepsEntry(pending: map<string, PendingConfirmation>, sessionId: string, message: string)
    requires sessionId in pending && Normalize(message) != ConfirmReply(pending[sessionId].token)
    ensures ConsumeIfValidAfter(pending, sessionId, message) == pending
    ensures ConsumeIfValidAnswer(pending, sessionId, message) ==
      (if StartsWith(Normalize(message), ConfirmPrefix) then Answer(true, "") else Refused)
  {
  }

  /** Without a pending entry both consume operations refuse and change nothing. */
  lemma NoEntryRefused(pending: map<string, PendingConfirmation>, sessionId: string, message: string)
    requires sessionId !in pending
    ensures ConsumeIfValidAnswer(pending, sessionId, message) == Refused
    ensures ConsumeTokenAnswer(pending, sessionId, message) == Refused
    ensures ConsumeIfValidAfter(pending, sessionId, message) == pending
    ensures ConsumeTokenAfter(pending, sessionId, message) == pending
  {
  }

  /** Consuming for one session never touches another session's entry. */
  lemma OtherSessionsUntouched(pending: map<string, PendingConfirmation>, sessionId: string, message: string, other: string)
    requires other != sessionId
    ensures other in ConsumeIfValidAfter(pending, sessionId, message) <==> other in pending
    ensures other in ConsumeTokenAfter(pending, sessionId, message) <==> other in pending
    ensures other in pending ==> ConsumeIfValidAfter(pending, sessionId, message)[other] == pending[other]
    ensures other in pending ==> ConsumeTokenAfter(pending, sessionId, message)[other] == pending[other]
  {
  }

  /** `consume_token` accepts the issued token, with or without surrounding whitespace, and removes the entry. */
  lemma ConsumeTokenRoundTrip(pending: map<string, PendingConfirmation>, sessionId: string, original: string,
                              token: string, now: string, before: string, after: string)
    requires IsToken(token)
    requires forall i :: 0 <= i < |before| ==> IsSpace(before[i])
    requires forall i :: 0 <= i < |after| ==> IsSpace(after[i])
    ensures var issued := pending[sessionId := PendingConfirmation(token, original, now)];
      ConsumeTokenAnswer(issued, sessionId, before + token + after) == Answer(true, original)
    ensures var issued := pending[sessionId := PendingConfirmation(token, original, now)];
      ConsumeTokenAfter(issued, sessionId, before + token + after) == pending - {sessionId}
  {
    assert !IsSpace(token[0]) && !IsSpace(token[7]);
    StripPadded(before, token, after, Spaces);
  }
}
