/**
  * The dry-run e-mail queue: messages are appended to a JSON list kept in
  * one file and never sent. The file is modelled by what reading it gives.
  */
module EmailQueue {
  import opened Wrappers
  import opened Text
  import opened Values
  import opened ToolResults

  /** The queue file as `_load` finds it: absent, not valid JSON, or the value it parses to. */
  datatype QueueFile = Missing | Unparsable | Parsed(data: Value)

  const InvalidRecipient: string := "Invalid recipient email."
  const Queued: string := "Email queued (dry-run)."

  /** `_load`: the stored list, or `[]` when the file is missing, unreadable as JSON, or not a list. */
  function LoadOf(f: QueueFile): seq<Value>
  {
    if f.Parsed? && f.data.List? then f.data.items else []
  }

  /** `EmailRecord(...).__dict__`, in field order. */
  function EmailRecord(createdAt: string, to: string, subject: string, body: string): Value
  {
    Dict([(Str("created_at"), Str(createdAt)), (Str("to"), Str(to)), (Str("subject"), Str(subject)), (Str("body"), Str(body))])
  }

  /** A result together with the queue file it leaves behind. */
  datatype QueueEffect = QueueEffect(result: ToolResult, file: QueueFile)

  /**
    * What `queue_email` answers and leaves on disk: a recipient without `@`
    * is refused; otherwise the record with stripped recipient and subject is
    * appended and the list is written back as JSON.
    */
  function QueueOutcome(f: QueueFile, to: string, subject: string, body: string, now: string): QueueEffect
  {
    if '@' !in to then QueueEffect(Fail(InvalidRecipient), f)
    else
      var items := LoadOf(f) + [EmailRecord(now, Strip(to), Strip(subject), body)];
      QueueEffect(ToolResult(true, Some(Queued), QueuedCount(|items|)), Parsed(JsonRoundTrip(List(items))))
  }

  class EmailModule {
    var file: QueueFile

    /** Whatever the file holds came from `json.loads`. */
    predicate Valid()
      reads this
    {
      file.Parsed? ==> JsonShaped(file.data)
    }

    constructor(initial: QueueFile)
      requires initial.Parsed? ==> JsonShaped(initial.data)
      ensures file == initial && Valid()
    {
      file := initial;
    }

    /** `queue_email`; `now` is the clock's reading. */
    method QueueEmail(to: string, subject: string, body: string, now: string) returns (r: ToolResult)
      requires Valid()
      modifies this
      ensures Valid()
      ensures r == QueueOutcome(old(file), to, subject, body, now).result
      ensures file == QueueOutcome(old(file), to, subject, body, now).file
    {
      if '@' !in to {
        return Fail(InvalidRecipient);
      }
      var record := EmailRecord(now, Strip(to), Strip(subject), body);
      var items := LoadOf(file);
      items := items + [record];
      RecordShaped(now, Strip(to), Strip(subject), body);
      QueuedItemsShaped(file, record);
      file := Parsed(JsonRoundTrip(List(items)));
      JsonRoundTripShaped(List(items));
      r := ToolResult(true, Some(Queued), QueuedCount(|items|));
    }

    /** `list_queue`: every stored item, in order. */
    function ListQueue(): (r: ToolResult)
      reads this
      ensures r.ok && r.body.QueueItems? && |r.body.items| == |LoadOf(file)|
      ensures forall i :: 0 <= i < |r.body.items| ==> r.body.items[i] == LoadOf(file)[i]
    {
      Success(QueueItems(LoadOf(file)))
    }
  }

  /** The queue rewritten after an append still holds only JSON values. */
  lemma QueuedItemsShaped(f: QueueFile, record: Value)
    requires f.Parsed? ==> JsonShaped(f.data)
    requires JsonShaped(record)
    ensures JsonShaped(List(LoadOf(f) + [record]))
  {
    var items := LoadOf(f);
    if f.Parsed? && f.data.List? {
      assert JsonShapedItems(f.data, items);
    }
    ShapedItemsSnoc(items, record);
  }

  lemma {:induction false} ShapedItemsSnoc(items: seq<Value>, x: Value)
    requires JsonShaped(List(items)) && JsonShaped(x)
    ensures JsonShaped(List(items + [x]))
    decreases |items|
  {
    var l := List(items + [x]);
    if items == [] {
      assert JsonShapedItems(l, []);
    } else {
      var tail := items[1..];
      assert JsonShapedItems(List(items), tail);
      assert JsonShaped(List(tail)) by {
        ItemsShapeAnyParent(List(items), List(tail), tail);
      }
      ShapedItemsSnoc(tail, x);
      assert (items + [x])[1..] == tail + [x];
      ItemsShapeAnyParent(List(tail + [x]), l, tail + [x]);
    }
  }

  /** Whether a run of items is JSON-shaped does not depend on the value that holds them. */
  lemma {:induction false} ItemsShapeAnyParent(p: Value, q: Value, items: seq<Value>)
    requires forall k :: 0 <= k < |items| ==> items[k] < p && items[k] < q
    requires JsonShapedItems(p, items)
    ensures JsonShapedItems(q, items)
    decreases |items|
  {
    if items != [] {
      ItemsShapeAnyParent(p, q, items[1..]);
    }
  }

  /** A fresh record holds four distinct string keys with string values. */
  lemma RecordShaped(createdAt: string, to: string, subject: string, body: string)
    ensures JsonShaped(EmailRecord(createdAt, to, subject, body))
  {
    var d := EmailRecord(createdAt, to, subject, body);
    var e := d.entries;
    assert JsonShapedEntries(d, e[3..]) by {
      assert JsonShapedEntries(d, e[4..]);
    }
    assert JsonShapedEntries(d, e[2..]);
    assert JsonShapedEntries(d, e[1..]);
  }

  /** `_load` falls back to the empty list whenever the file does not hold a JSON list. */
  lemma LoadFallbacks(f: QueueFile)
    requires !(f.Parsed? && f.data.List?)
    ensures LoadOf(f) == []
  {
  }

  /** A recipient without `@` is refused and the queue file is left as it was. */
  lemma InvalidRecipientUnchanged(f: QueueFile, to: string, subject: string, body: string, now: string)
    requires '@' !in to
    ensures !QueueOutcome(f, to, subject, body, now).result.ok
    ensures QueueOutcome(f, to, subject, body, now).result.message == Some(InvalidRecipient)
    ensures QueueOutcome(f, to, subject, body, now).file == f
  {
  }

  /**
    * A successful `queue_email` appends exactly one record after the
    * earlier ones, which keep their order, and reports the new length.
    */
  lemma QueueAppends(f: QueueFile, to: string, subject: string, body: string, now: string)
    requires f.Parsed? ==> JsonShaped(f.data)
    requires '@' in to
    ensures var e := QueueOutcome(f, to, subject, body, now);
      LoadOf(e.file) == LoadOf(f) + [EmailRecord(now, Strip(to), Strip(subject), body)]
      && e.result.ok && e.result.body == QueuedCount(|LoadOf(e.file)|)
  {
    var items := LoadOf(f) + [EmailRecord(now, Strip(to), Strip(subject), body)];
    RecordShaped(now, Strip(to), Strip(subject), body);
    QueuedItemsShaped(f, EmailRecord(now, Strip(to), Strip(subject), body));
    JsonRoundTripShaped(List(items));
  }

  /** The stored recipient and subject are stripped and the body is kept verbatim. */
  lemma RecordFields(createdAt: string, to: string, subject: string, body: string)
    ensures var d := EmailRecord(createdAt, Strip(to), Strip(subject), body).entries;
      Get(d, "to", Null) == Str(Strip(to)) && Get(d, "subject", Null) == Str(Strip(subject))
      && Get(d, "body", Null) == Str(body) && Get(d, "created_at", Null) == Str(createdAt)
  {
    var d := EmailRecord(createdAt, Strip(to), Strip(subject), body).entries;
    // The four keys have different lengths, so no key matches another.
    var d1, d2, d3 := d[1..], d[2..], d[3..];
    assert d1[1..] == d2 && d2[1..] == d3;
    assert Get(d, "to", Null) == Get(d1, "to", Null) by {
      assert |d[0].0.s| != |"to"|;
    }
    assert Get(d1, "subject", Null) == Get(d2, "subject", Null) by {
      assert |d1[0].0.s| != |"subject"|;
    }
    assert Get(d, "subject", Null) == Get(d1, "subject", Null) by {
      assert |d[0].0.s| != |"subject"|;
    }
    assert Get(d2, "body", Null) == Get(d3, "body", Null) by {
      assert |d2[0].0.s| != |"body"|;
    }
    assert Get(d1, "body", Null) == Get(d2, "body", Null) by {
      assert |d1[0].0.s| != |"body"|;
    }
    assert Get(d, "body", Null) == Get(d1, "body", Null) by {
      assert |d[0].0.s| != |"body"|;
    }
  }
}
