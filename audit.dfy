/**
  * The audit sink: every event is appended as one record holding the
  * clock's reading, the event name and the payload, each payload value
  * turned into text by `str` and then passed through secret redaction.
  */
module Audit {
  import opened Values
  import opened Security

  /** One line of `audit.jsonl`. */
  datatype AuditRecord = AuditRecord(ts: string, event: string, payload: seq<(string, string)>)

  /**
    * `{k: redact_secrets(str(v)) for k, v in payload.items()}`: every key
    * in its place, with its value's text redacted.
    */
  function Logged(payload: seq<(string, Value)>): (r: seq<(string, string)>)
    ensures |r| == |payload|
    ensures forall i :: 0 <= i < |payload| ==> r[i] == (payload[i].0, RedactSecrets(PyStr(payload[i].1)))
  {
    if payload == [] then []
    else [(payload[0].0, RedactSecrets(PyStr(payload[0].1)))] + Logged(payload[1..])
  }

  /** The record `write` appends at time `now`. */
  function RecordOf(now: string, event: string, payload: seq<(string, Value)>): AuditRecord
  {
    AuditRecord(now, event, Logged(payload))
  }

  class AuditLog {
    /** The lines of the log file, oldest first. */
    var records: seq<AuditRecord>

    constructor()
      ensures records == []
    {
      records := [];
    }

    /** `write`: one record is appended and nothing earlier changes. */
    method Write(event: string, payload: seq<(string, Value)>, now: string)
      modifies this
      ensures records == old(records) + [RecordOf(now, event, payload)]
    {
      records := records + [RecordOf(now, event, payload)];
    }
  }

  /** No logged value holds an `sk-`, `ghp_` or `AIza` secret, whatever the payload held. */
  lemma LoggedHoldsNoSecret(payload: seq<(string, Value)>)
    ensures forall i, k :: 0 <= i < |payload| && 0 <= k < 3 ==> FreeOf(SecretPatterns[k], Logged(payload)[i].1)
  {
    forall i | 0 <= i < |payload| ensures forall k :: 0 <= k < 3 ==> FreeOf(SecretPatterns[k], Logged(payload)[i].1) {
      RedactedIsFree(PyStr(payload[i].1));
    }
  }
}
