/** `consume_messages` (src/api/bot_api/kafka_consumer.py): the bot's Kafka
    consumer. Each record is decoded and handed to `send_messages_to_users`;
    a record that cannot be decoded, or whose delivery raises, is published to
    the dead-letter topic and the stream goes on. */
module KafkaConsumer {
  import opened Wrappers
  import opened Schemas
  import opened BotSendMessage

  /** The raw value of a Kafka record. */
  type Bytes = seq<bv8>

  /** The dead-letter payload: `{"error": ..., "original_message": ...}`. */
  datatype DeadLetter = DeadLetter(error: string, originalMessage: string)

  /** What became of one record. */
  datatype Outcome = Delivered(payload: Payload) | Dead(letter: DeadLetter)

  /** One pass of the loop body. `parse` is strict UTF-8 decoding followed by
      `json.loads` (its error is the exception's text), `fails` says whether
      `send_messages_to_users` raises on the payload and with what text, and
      `lenient` is the decoding with `errors="ignore"`. */
  function Handle(m: Bytes, parse: Bytes -> Result<Payload, string>, fails: Payload -> Option<string>,
                  lenient: Bytes -> string): (o: Outcome)
    ensures o.Delivered? <==> parse(m).Success? && fails(parse(m).value).None?
    ensures o.Delivered? ==> o.payload == parse(m).value
    ensures o.Dead? ==> o.letter.originalMessage == lenient(m)
    ensures o.Dead? && parse(m).Failure? ==> o.letter.error == parse(m).error
  {
    match parse(m)
    case Failure(e) => Dead(DeadLetter(e, lenient(m)))
    case Success(p) =>
      if fails(p).Some? then Dead(DeadLetter(fails(p).value, lenient(m))) else Delivered(p)
  }

  /** The outcomes of a stream of records, in order. */
  function Outcomes(ms: seq<Bytes>, parse: Bytes -> Result<Payload, string>, fails: Payload -> Option<string>,
                    lenient: Bytes -> string): (os: seq<Outcome>)
    ensures |os| == |ms|
    decreases |ms|
  {
    if ms == [] then []
    else Outcomes(ms[..|ms| - 1], parse, fails, lenient) + [Handle(ms[|ms| - 1], parse, fails, lenient)]
  }

  /** What reaches the dead-letter topic, in order. */
  function DeadLetters(os: seq<Outcome>): seq<DeadLetter>
    decreases |os|
  {
    if os == [] then []
    else DeadLetters(os[..|os| - 1]) + (if os[|os| - 1].Dead? then [os[|os| - 1].letter] else [])
  }

  /** The payloads delivered without error, in order. */
  function DeliveredPayloads(os: seq<Outcome>): seq<Payload>
    decreases |os|
  {
    if os == [] then []
    else DeliveredPayloads(os[..|os| - 1]) + (if os[|os| - 1].Delivered? then [os[|os| - 1].payload] else [])
  }

  /** The Telegram messages sent for the delivered payloads, in order. */
  function SentFor(os: seq<Outcome>): seq<Message>
    decreases |os|
  {
    if os == [] then []
    else SentFor(os[..|os| - 1]) + (if os[|os| - 1].Delivered? then Dispatch(os[|os| - 1].payload) else [])
  }

  /** The body of the loop for one record: decode, deliver, or dead-letter. */
  method HandleRecord(m: Bytes, parse: Bytes -> Result<Payload, string>, fails: Payload -> Option<string>,
                      lenient: Bytes -> string, client: TelegramClient) returns (letter: Option<DeadLetter>)
    modifies client
    ensures var o := Handle(m, parse, fails, lenient);
            letter == (if o.Dead? then Some(o.letter) else None)
            && client.sent == old(client.sent) + (if o.Delivered? then Dispatch(o.payload) else [])
  {
    var data := parse(m);
    if data.Failure? {
      letter := Some(DeadLetter(data.error, lenient(m)));
    } else if fails(data.value).Some? {
      letter := Some(DeadLetter(fails(data.value).value, lenient(m)));
    } else {
      SendMessagesToUsers(data.value, client);
      letter := None;
    }
  }

  /** Kept as a lemma so that the loop's proof sees this one equation only. */
  lemma AppendAssoc(a: seq<Message>, b: seq<Message>, c: seq<Message>)
    ensures (a + b) + c == a + (b + c)
  {
  }

  /** The consumer loop over the records the topic yields. The dead letters
      are returned in the order `send_and_wait` publishes them. */
  method ConsumeMessages(ms: seq<Bytes>, parse: Bytes -> Result<Payload, string>, fails: Payload -> Option<string>,
                         lenient: Bytes -> string, client: TelegramClient) returns (deadLetters: seq<DeadLetter>)
    modifies client
    ensures deadLetters == DeadLetters(Outcomes(ms, parse, fails, lenient))
    ensures client.sent == old(client.sent) + SentFor(Outcomes(ms, parse, fails, lenient))
  {
    deadLetters := [];
    ghost var start := client.sent;
    for k := 0 to |ms|
      invariant deadLetters == DeadLetters(Outcomes(ms[..k], parse, fails, lenient))
      invariant client.sent == start + SentFor(Outcomes(ms[..k], parse, fails, lenient))
    {
      ghost var prev := Outcomes(ms[..k], parse, fails, lenient);
      ghost var o := Handle(ms[k], parse, fails, lenient);
      OutcomesStep(ms, k, parse, fails, lenient);
      Snoc(prev, o);
      ghost var before := client.sent;
      var letter := HandleRecord(ms[k], parse, fails, lenient, client);
      if letter.Some? {
        deadLetters := deadLetters + [letter.value];
      }
      ghost var step := if o.Delivered? then Dispatch(o.payload) else [];
      assert client.sent == before + step;
      AppendAssoc(start, SentFor(prev), step);
    }
    assert ms[..|ms|] == ms;
  }

  lemma OutcomesStep(ms: seq<Bytes>, k: nat, parse: Bytes -> Result<Payload, string>,
                     fails: Payload -> Option<string>, lenient: Bytes -> string)
    requires k < |ms|
    ensures Outcomes(ms[..k + 1], parse, fails, lenient)
            == Outcomes(ms[..k], parse, fails, lenient) + [Handle(ms[k], parse, fails, lenient)]
  {
    assert ms[..k + 1][..k] == ms[..k];
  }

  lemma Snoc(os: seq<Outcome>, o: Outcome)
    ensures DeadLetters(os + [o]) == DeadLetters(os) + (if o.Dead? then [o.letter] else [])
    ensures SentFor(os + [o]) == SentFor(os) + (if o.Delivered? then Dispatch(o.payload) else [])
  {
    assert (os + [o])[..|os|] == os;
  }

  /** Outcomes of a concatenated stream are the concatenated outcomes. */
  lemma {:induction false} OutcomesAppend(a: seq<Bytes>, b: seq<Bytes>, parse: Bytes -> Result<Payload, string>,
                                          fails: Payload -> Option<string>, lenient: Bytes -> string)
    ensures Outcomes(a + b, parse, fails, lenient) == Outcomes(a, parse, fails, lenient) + Outcomes(b, parse, fails, lenient)
    decreases |b|
  {
    if b == [] {
      assert a + b == a;
    } else {
      var b0 := b[..|b| - 1];
      assert (a + b)[..|a + b| - 1] == a + b0;
      assert (a + b)[|a + b| - 1] == b[|b| - 1];
      OutcomesAppend(a, b0, parse, fails, lenient);
    }
  }

  lemma {:induction false} DeadLettersAppend(x: seq<Outcome>, y: seq<Outcome>)
    ensures DeadLetters(x + y) == DeadLetters(x) + DeadLetters(y)
    decreases |y|
  {
    if y == [] {
      assert x + y == x;
    } else {
      assert (x + y)[..|x + y| - 1] == x + y[..|y| - 1];
      assert (x + y)[|x + y| - 1] == y[|y| - 1];
      DeadLettersAppend(x, y[..|y| - 1]);
    }
  }

  lemma {:induction false} SentForAppend(x: seq<Outcome>, y: seq<Outcome>)
    ensures SentFor(x + y) == SentFor(x) + SentFor(y)
    decreases |y|
  {
    if y == [] {
      assert x + y == x;
    } else {
      assert (x + y)[..|x + y| - 1] == x + y[..|y| - 1];
      assert (x + y)[|x + y| - 1] == y[|y| - 1];
      SentForAppend(x, y[..|y| - 1]);
    }
  }

  /** A failing record does not stop the stream: consuming `a` then `b` sends
      and dead-letters exactly what consuming each on its own would. */
  lemma StreamIsCompositional(a: seq<Bytes>, b: seq<Bytes>, parse: Bytes -> Result<Payload, string>,
                              fails: Payload -> Option<string>, lenient: Bytes -> string)
    ensures var os := Outcomes(a + b, parse, fails, lenient);
            DeadLetters(os) == DeadLetters(Outcomes(a, parse, fails, lenient)) + DeadLetters(Outcomes(b, parse, fails, lenient))
            && SentFor(os) == SentFor(Outcomes(a, parse, fails, lenient)) + SentFor(Outcomes(b, parse, fails, lenient))
  {
    OutcomesAppend(a, b, parse, fails, lenient);
    DeadLettersAppend(Outcomes(a, parse, fails, lenient), Outcomes(b, parse, fails, lenient));
    SentForAppend(Outcomes(a, parse, fails, lenient), Outcomes(b, parse, fails, lenient));
  }

  /** Every record ends either delivered or dead-lettered, never both and
      never neither. */
  lemma {:induction false} EveryRecordAccounted(os: seq<Outcome>)
    ensures |DeadLetters(os)| + |DeliveredPayloads(os)| == |os|
    decreases |os|
  {
    if os != [] {
      EveryRecordAccounted(os[..|os| - 1]);
    }
  }

  /** The messages sent are the digests of the delivered payloads, one after
      the other. */
  lemma {:induction false} SentIsDigestsOfDelivered(os: seq<Outcome>)
    ensures SentFor(os) == DispatchAll(DeliveredPayloads(os))
    decreases |os|
  {
    if os != [] {
      var init := os[..|os| - 1];
      SentIsDigestsOfDelivered(init);
      var last := os[|os| - 1];
      assert SentFor(os) == SentFor(init) + (if last.Delivered? then Dispatch(last.payload) else []);
      if last.Delivered? {
        var ps := DeliveredPayloads(init) + [last.payload];
        assert DeliveredPayloads(os) == ps;
        assert ps[..|ps| - 1] == DeliveredPayloads(init);
        assert DispatchAll(ps) == DispatchAll(DeliveredPayloads(init)) + Dispatch(last.payload);
      } else {
        assert DeliveredPayloads(os) == DeliveredPayloads(init);
      }
    }
  }

  /** The digests of several payloads, one after the other. */
  function DispatchAll(ps: seq<Payload>): seq<Message>
    decreases |ps|
  {
    if ps == [] then [] else DispatchAll(ps[..|ps| - 1]) + Dispatch(ps[|ps| - 1])
  }

  /** A record that is not valid JSON sends nothing and produces one dead
      letter with the error and the leniently decoded record. */
  lemma BrokenRecord(m: Bytes, parse: Bytes -> Result<Payload, string>, fails: Payload -> Option<string>,
                     lenient: Bytes -> string)
    requires parse(m).Failure?
    ensures var os := Outcomes([m], parse, fails, lenient);
            DeadLetters(os) == [DeadLetter(parse(m).error, lenient(m))] && SentFor(os) == []
  {
    assert [m][..0] == [];
    var os := Outcomes([m], parse, fails, lenient);
    assert os == [Dead(DeadLetter(parse(m).error, lenient(m)))];
    assert os[..0] == [];
  }

  /** A record carrying one update is delivered as that chat's single digest
      entry, with nothing dead-lettered. */
  lemma SingleUpdateRecord(m: Bytes, u: LinkUpdate, parse: Bytes -> Result<Payload, string>,
                           fails: Payload -> Option<string>, lenient: Bytes -> string)
    requires parse(m) == Success(Payload(Some([u]))) && fails(Payload(Some([u]))).None?
    ensures var os := Outcomes([m], parse, fails, lenient);
            DeadLetters(os) == [] && SentFor(os) == [Message(u.tgChatId, EntryText(u))]
  {
    assert [m][..0] == [];
    var os := Outcomes([m], parse, fails, lenient);
    assert os == [Delivered(Payload(Some([u])))];
    assert os[..0] == [];
    SingleUpdate(u);
  }
}
