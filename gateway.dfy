/**
 * The first half of the webhook handler in server.js: the decision chain that
 * drops the provider's echoes of the bot's own messages, the extraction of the
 * sender, text, type and id through their alias fields, the validation, the
 * digits-only conversation number, and the key used to deduplicate deliveries.
 */
module Gateway {
  import opened Strings
  import opened Seqs
  import opened Json

  /** The event types that only ever describe outbound traffic. */
  const OutboundEvents: seq<string> := [
    "message_status", "sent", "delivered", "read",
    "session_message_sent", "template_message_sent",
    "message_delivered", "message_read"
  ]

  /** How many characters of the text go into a key made without a message id. */
  const KeyTextLength: nat := 50

  const SenderKeys: seq<string> := ["waId", "whatsappNumber", "from", "sender"]
  const TextKeys: seq<string> := ["text", "message", "body"]
  const TypeKeys: seq<string> := ["type", "messageType"]
  const IdKeys: seq<string> := ["id", "messageId", "whatsappMessageId"]

  datatype Reason = OwnFlag | OutboundEvent | InferredOutbound | MissingField | NotText

  /** An inbound text message, ready to be processed. */
  datatype Envelope = Envelope(number: string, text: string, dedupKey: string)

  /**
   * `Discarded`: answered 200 and dropped. `Crashed`: a TypeError in the handler,
   * answered 500. `Unsupported`: a field of a type the rest of the model does not
   * cover (an object, an array or a boolean as id, a non-string text with an id).
   */
  datatype Verdict = Discarded(why: Reason) | Accepted(envelope: Envelope) | Crashed | Unsupported

  /** `replace(/[^0-9]/g, '')` */
  function DigitsOnly(s: string): (r: string)
    ensures |r| <= |s| && forall k | 0 <= k < |r| :: IsDigit(r[k])
  {
    if s == [] then [] else (if IsDigit(s[0]) then [s[0]] else []) + DigitsOnly(s[1..])
  }

  predicate OwnFlagSet(p: Object) {
    Get(p, "isOwner") == Bool(true) || Get(p, "owner") == Bool(true)
  }

  /** `(body.eventType || body.event || '')`, which must be a string to be lower-cased. */
  function EventField(p: Object): Value {
    OrElse(Chain(p, ["eventType", "event"]), Str(""))
  }

  /** The owner flags are not explicitly `false`, and a status field looks outbound. */
  predicate LooksOutbound(p: Object) {
    Get(p, "isOwner") != Bool(false) && Get(p, "owner") != Bool(false)
    && (Get(p, "statusString") == Str("SENT") || Get(p, "status") == Num(1) || Get(p, "sourceType") == Num(0))
  }

  /** `messageType`, which defaults to 'text' when no type field is truthy. */
  function TypeField(p: Object): Value {
    OrElse(Chain(p, TypeKeys), Str("text"))
  }

  /** The message id as the dedup table stores it (a number becomes its decimal text). */
  function IdText(v: Value): string {
    match v
    case Num(n) => IntToString(n)
    case Str(s) => s
    case _ => ""
  }

  /** The key that marks a delivery as handled: the message id, else number, dash and the text's start. */
  function DedupKey(id: Value, number: string, text: string): string {
    if Truthy(id) then IdText(id) else number + "-" + Take(text, KeyTextLength)
  }

  /** What the handler does with a payload, up to and including the dedup key. */
  function Classify(p: Object): Verdict {
    if OwnFlagSet(p) then Discarded(OwnFlag)
    else if !EventField(p).Str? then Crashed
    else if Lower(EventField(p).s) in OutboundEvents then Discarded(OutboundEvent)
    else if LooksOutbound(p) then Discarded(InferredOutbound)
    else
      var waId, text, id := Chain(p, SenderKeys), Chain(p, TextKeys), Chain(p, IdKeys);
      if !Truthy(waId) || !Truthy(text) then Discarded(MissingField)
      else if TypeField(p) != Str("text") then Discarded(NotText)
      else
        var number := DigitsOnly(ToText(waId));
        if !Truthy(id) then
          if text.Str? then Accepted(Envelope(number, text.s, DedupKey(id, number, text.s))) else Crashed
        else if !(id.Str? || id.Num?) || !text.Str? then Unsupported
        else Accepted(Envelope(number, text.s, DedupKey(id, number, text.s)))
  }

  // ---------------------------------------------------------------------------
  // Properties

  /** An explicit owner flag, or an outbound event type in any letter case, always discards. */
  lemma EchoesDiscarded(p: Object)
    ensures OwnFlagSet(p) ==> Classify(p) == Discarded(OwnFlag)
    ensures !OwnFlagSet(p) && EventField(p).Str? && Lower(EventField(p).s) in OutboundEvents ==>
      Classify(p) == Discarded(OutboundEvent)
  {
  }

  /**
   * The status heuristic discards exactly the payloads that survived the two exact
   * checks, have neither owner flag explicitly `false`, and carry an outbound status.
   */
  lemma HeuristicDiscards(p: Object)
    ensures Classify(p) == Discarded(InferredOutbound) <==>
      !OwnFlagSet(p) && EventField(p).Str? && Lower(EventField(p).s) !in OutboundEvents && LooksOutbound(p)
    ensures Get(p, "isOwner") == Bool(false) || Get(p, "owner") == Bool(false) ==>
      Classify(p) != Discarded(InferredOutbound)
  {
  }

  /**
   * A payload is accepted exactly when it passes the echo checks, the sender and
   * text aliases yield a truthy sender and a non-empty text, the type is 'text' or
   * absent, and the id is absent, a string or a number; the envelope then holds the
   * sender's digits, the text, and the dedup key.
   */
  lemma AcceptedExactly(p: Object)
    ensures var waId, text, id := Chain(p, SenderKeys), Chain(p, TextKeys), Chain(p, IdKeys);
      Classify(p).Accepted? <==>
        && !OwnFlagSet(p) && EventField(p).Str? && Lower(EventField(p).s) !in OutboundEvents && !LooksOutbound(p)
        && Truthy(waId) && text.Str? && text.s != ""
        && TypeField(p) == Str("text")
        && (!Truthy(id) || id.Str? || id.Num?)
    ensures var waId, text, id := Chain(p, SenderKeys), Chain(p, TextKeys), Chain(p, IdKeys);
      Classify(p).Accepted? ==>
        var e := Classify(p).envelope;
        e.number == DigitsOnly(ToText(waId)) && e.text == text.s && e.dedupKey == DedupKey(id, e.number, e.text)
  {
  }

  /** A payload missing its sender or its text is dropped, whatever else it holds, once it passes the echo checks. */
  lemma MissingFieldDiscards(p: Object)
    requires !OwnFlagSet(p) && EventField(p).Str? && Lower(EventField(p).s) !in OutboundEvents && !LooksOutbound(p)
    requires (forall k | k in SenderKeys :: !Truthy(Get(p, k))) || (forall k | k in TextKeys :: !Truthy(Get(p, k)))
    ensures Classify(p) == Discarded(MissingField)
  {
    ChainFirstTruthy(p, SenderKeys);
    ChainFirstTruthy(p, TextKeys);
  }

  /** The conversation number keeps every digit of the sender, in order, and nothing else. */
  lemma {:induction false} DigitsOnlyKeepsDigits(s: string)
    ensures DigitsOnly(s) == s <==> forall k | 0 <= k < |s| :: IsDigit(s[k])
    ensures DigitsOnly(DigitsOnly(s)) == DigitsOnly(s)
  {
    if s != [] {
      DigitsOnlyKeepsDigits(s[1..]);
      var r := DigitsOnly(s);
      if r == s {
        assert r[1..] == s[1..];
      }
      if forall k | 0 <= k < |s| :: IsDigit(s[k]) {
        assert forall k | 0 <= k < |s[1..]| :: s[1..][k] == s[k + 1];
      }
      DigitsOnlyOfDigits(r);
    }
  }

  lemma {:induction false} DigitsOnlyOfDigits(s: string)
    requires forall k | 0 <= k < |s| :: IsDigit(s[k])
    ensures DigitsOnly(s) == s
  {
    if s != [] {
      DigitsOnlyOfDigits(s[1..]);
    }
  }

  /**
   * Without a message id the key is the number, a dash and at most 50 characters
   * of the text; so two id-less messages from one sender whose texts agree on their
   * first 50 characters get the same key, and the second counts as a duplicate.
   */
  lemma KeyWithoutId(id: Value, number: string, text: string, other: string)
    requires !Truthy(id)
    ensures var key := DedupKey(id, number, text);
      && key[..|number| + 1] == number + "-"
      && |key| <= |number| + 1 + KeyTextLength
      && (Take(text, KeyTextLength) == Take(other, KeyTextLength) ==> DedupKey(id, number, other) == key)
  {
  }

  /**
   * A sender given as a number is read through its decimal text, sign dropped: the
   * conversation is the digits of the number's magnitude, which read back as that
   * magnitude.
   */
  lemma NumericSender(i: int)
    ensures var magnitude := if i < 0 then -i else i;
      && DigitsOnly(ToText(Num(i))) == NatToString(magnitude)
      && DigitsValue(DigitsOnly(ToText(Num(i)))) == magnitude
  {
    var magnitude := if i < 0 then -i else i;
    var digits := NatToString(magnitude);
    assert ToText(Num(i)) == IntToString(i);
    DigitsOnlyOfDigits(digits);
    if i < 0 {
      assert ("-" + digits)[1..] == digits;
    }
    NatToStringRoundTrip(magnitude);
  }

  /** 42 and "+4 2" give the same conversation. */
  lemma FortyTwoSender()
    ensures DigitsOnly(ToText(Num(42))) == DigitsOnly("+4 2") == "42"
  {
    assert NatToString(42) == "42";
    assert DigitsOnly("2") == "2";
    assert DigitsOnly("42") == "42";
    assert DigitsOnly(" 2") == "2";
    assert DigitsOnly("4 2") == "42";
  }
}
