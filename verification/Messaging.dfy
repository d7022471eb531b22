// What travels between the relay and the consumers, and the small types both sides share.

module Messaging {

  datatype Option<+T> = None | Some(value: T)

  datatype Result<+T> = Ok(value: T) | Err(error: string)

  // The part of an outbox row that is copied into the message body
  // (src/outbox/application/outbox-relay.service.ts:134-147).
  datatype Content = Content(tenantId: string, kind: string, adviceId: string)

  // A message body after JSON parsing.  An absent field is the empty string: the
  // consumer reads every field through `||`, which treats the two alike.
  datatype Body =
    | Malformed
    | Body(eventId: string, kind: string, legacyKind: string, tenantId: string, adviceId: string)

  // A message as the queue hands it over, with the id the queue gave it.
  datatype Envelope = Envelope(messageId: string, body: Body)

  function BodyOf(eventId: string, content: Content): Body {
    Body(eventId, content.kind, "", content.tenantId, content.adviceId)
  }

  // Number of messages in `sent` that carry event `id`.
  function Copies(sent: seq<Envelope>, id: string): nat {
    if sent == [] then 0
    else
      var last := sent[|sent| - 1];
      Copies(sent[..|sent| - 1], id) + (if last.body.Body? && last.body.eventId == id then 1 else 0)
  }

  lemma CopiesAppend(sent: seq<Envelope>, m: Envelope, id: string)
    ensures Copies(sent + [m], id) == Copies(sent, id) + (if m.body.Body? && m.body.eventId == id then 1 else 0)
  {
    assert (sent + [m])[..|sent|] == sent;
  }

  // A positive count means that such a message was sent.
  lemma {:induction false} CopiesPositive(sent: seq<Envelope>, id: string)
    ensures Copies(sent, id) > 0 <==> exists m :: m in sent && m.body.Body? && m.body.eventId == id
  {
    if sent == [] {
    } else {
      var last := sent[|sent| - 1];
      CopiesPositive(sent[..|sent| - 1], id);
      assert sent == sent[..|sent| - 1] + [last];
    }
  }

  // There is always a process that is not busy.
  lemma {:induction false} UnusedId(busy: set<nat>) returns (unused: nat)
    ensures unused !in busy && forall id :: id in busy ==> id < unused
  {
    if busy == {} {
      unused := 0;
    } else {
      var id :| id in busy;
      var other := UnusedId(busy - {id});
      unused := if other > id then other else id + 1;
      forall x | x in busy ensures x < unused {
        assert x == id || x in busy - {id};
      }
    }
  }

  // The steps of a trace that satisfy `keep`, in order.
  function Select<T>(keep: T -> bool, trace: seq<T>): seq<T> {
    if trace == [] then []
    else (if keep(trace[0]) then [trace[0]] else []) + Select(keep, trace[1..])
  }

  lemma {:induction false} SelectAppend<T>(keep: T -> bool, a: seq<T>, b: seq<T>)
    ensures Select(keep, a + b) == Select(keep, a) + Select(keep, b)
  {
    if a == [] {
      assert a + b == b;
    } else {
      SelectAppend(keep, a[1..], b);
      assert (a + b)[0] == a[0] && (a + b)[1..] == a[1..] + b;
      var first := if keep(a[0]) then [a[0]] else [];
      assert first + (Select(keep, a[1..]) + Select(keep, b)) == (first + Select(keep, a[1..])) + Select(keep, b);
    }
  }

  lemma SelectOne<T>(keep: T -> bool, trace: seq<T>, step: T)
    requires Select(keep, trace) == [] && keep(step)
    ensures Select(keep, trace + [step]) == [step]
  {
    SelectAppend(keep, trace, [step]);
    assert [step][1..] == [];
    assert Select(keep, [step]) == [step] + Select(keep, []);
  }
}
