/** The event stream of a server turn (tutor/routes/sessions.py, event_gen), fully consumed. */
module Stream {
  import opened Wrappers

  datatype Event = StateEvent | Token(text: string) | Done(reply: string)

  /** What the coach provider does: hands over some deltas, then ends or fails. */
  datatype Delivery = Delivery(deltas: seq<string>, fails: bool)

  const NUDGE := "Let's keep going — what's your next thought?"

  function Fallback(hint: string): string {
    if hint != "" then hint else NUDGE
  }

  function Concat(parts: seq<string>): string {
    if parts == [] then "" else Concat(parts[..|parts| - 1]) + parts[|parts| - 1]
  }

  /** The text a client has shown after these events. */
  function Shown(events: seq<Event>): string {
    if events == [] then ""
    else Shown(events[..|events| - 1]) + match events[|events| - 1]
                                         case Token(text) => text
                                         case _ => ""
  }

  /** One state event, then tokens, then exactly one done. */
  predicate IsTrace(events: seq<Event>) {
    && |events| >= 2 && events[0].StateEvent? && events[|events| - 1].Done?
    && forall i :: 0 < i < |events| - 1 ==> events[i].Token?
  }

  function AsTokens(parts: seq<string>): (events: seq<Event>)
    ensures |events| == |parts| && forall i :: 0 <= i < |parts| ==> events[i] == Token(parts[i])
  {
    seq(|parts|, i requires 0 <= i < |parts| => Token(parts[i]))
  }

  function Trace(parts: seq<string>, reply: string): seq<Event> {
    [StateEvent] + AsTokens(parts) + [Done(reply)]
  }

  lemma {:induction false} ShownIsConcat(parts: seq<string>)
    ensures Shown([StateEvent] + AsTokens(parts)) == Concat(parts)
  {
    var events := [StateEvent] + AsTokens(parts);
    if parts == [] {
      assert events[..|events| - 1] == [];
    } else {
      ShownIsConcat(parts[..|parts| - 1]);
      assert events[..|events| - 1] == [StateEvent] + AsTokens(parts[..|parts| - 1]);
    }
  }

  lemma TraceLaws(parts: seq<string>, reply: string)
    ensures IsTrace(Trace(parts, reply)) && Shown(Trace(parts, reply)) == Concat(parts)
    ensures Trace(parts, reply)[1..|parts| + 1] == AsTokens(parts) && |Trace(parts, reply)| == |parts| + 2
  {
    var events := Trace(parts, reply);
    ShownIsConcat(parts);
    assert events[..|events| - 1] == [StateEvent] + AsTokens(parts);
  }

  /** Whatever the provider does, the client sees the state, then the tokens, then one done whose reply
      is what the tokens said, and that is what is persisted unless the store fails. A provider that
      fails before its first delta is covered by the gate's hint; one that fails later ends the reply
      early. A replay shows the earlier reply and persists nothing. */
  method EventGen(replayed: bool, earlier: string, delivery: Delivery, hint: string, storeFails: bool)
    returns (events: seq<Event>, persisted: Option<string>)
    ensures IsTrace(events)
    ensures replayed ==> events == [StateEvent, Done(earlier)] && persisted == None
    ensures !replayed ==> events[|events| - 1] == Done(Shown(events))
    ensures !replayed ==> persisted == if storeFails then None else Some(Shown(events))
    ensures !replayed && !(delivery.fails && delivery.deltas == []) ==> events[1..|events| - 1] == AsTokens(delivery.deltas)
    ensures !replayed && delivery.fails && delivery.deltas == [] ==>
              events[1..|events| - 1] == [Token(if hint == "" then "Let's keep going — what's your next thought?" else hint)]
  {
    events := [StateEvent];
    if replayed {
      return events + [Done(earlier)], None;
    }
    var parts := [];
    for i := 0 to |delivery.deltas|
      invariant parts == delivery.deltas[..i] && events == [StateEvent] + AsTokens(parts)
    {
      parts := parts + [delivery.deltas[i]];
      events := events + [Token(delivery.deltas[i])];
    }
    if delivery.fails && parts == [] {
      parts := parts + [Fallback(hint)];
      events := events + [Token(Fallback(hint))];
    }
    var reply := Concat(parts);
    persisted := if storeFails then None else Some(reply);
    events := events + [Done(reply)];
    assert events == Trace(parts, reply);
    TraceLaws(parts, reply);
  }
}
