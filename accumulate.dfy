/**
  The two log handlers that collect codes from log messages into a set:
  AccumulateVidops (SRC/accumulatevidops.py) keeps the stripped text after
  the first occurrence of a configurable marker; AccumulateNotProcessedVidops
  (accumulate_not_procesed_vidops.py) keeps the raw piece between the first
  and the second occurrence of the fixed marker "not_processing_vidop".
  A log record is modelled by its formatted message.
*/
module Accumulate {
  import opened Wrappers
  import opened Text

  // ------------------------------------------------------------ AccumulateVidops

  /** What emit adds for one message: nothing when the marker is empty or
      absent, else the stripped text after its first occurrence. */
  function VidopOf(marker: string, message: string): (r: Option<string>)
    ensures r.Some? <==> marker != "" && Contains(message, marker)
  {
    if marker != "" && Contains(message, marker) then Some(Strip(After(message, marker))) else None
  }

  /** The code is the stripped text after the first occurrence of the marker. */
  lemma VidopOfSpec(marker: string, message: string)
    requires VidopOf(marker, message).Some?
    ensures exists i: nat ::
      OccursAt(message, marker, i) && (forall j: nat :: j < i ==> !OccursAt(message, marker, j))
        && VidopOf(marker, message).value == Strip(message[i + |marker|..])
  {
    var i := Find(message, marker).value;
    assert After(message, marker) == message[i + |marker|..];
  }

  /** The set after emit(message). */
  function Emitted(acc: set<string>, marker: string, message: string): set<string>
  {
    Add(acc, VidopOf(marker, message))
  }

  function Add(acc: set<string>, code: Option<string>): set<string>
  {
    match code
    case None => acc
    case Some(v) => acc + {v}
  }

  /** The set a handler holds after the messages, in order, from the empty
      set, when pick says what each message adds. */
  function Gather(pick: string -> Option<string>, messages: seq<string>): set<string>
  {
    if messages == [] then {} else Add(Gather(pick, messages[..|messages| - 1]), pick(messages[|messages| - 1]))
  }

  /** The set holds exactly what the messages add, whatever their order and
      however often each comes. */
  lemma {:induction false} GatherSpec(pick: string -> Option<string>, messages: seq<string>, x: string)
    ensures x in Gather(pick, messages) <==> exists k :: 0 <= k < |messages| && pick(messages[k]) == Some(x)
    decreases |messages|
  {
    if messages != [] {
      var p, last := messages[..|messages| - 1], messages[|messages| - 1];
      GatherSpec(pick, p, x);
      if x in Gather(pick, p) {
        var k :| 0 <= k < |p| && pick(p[k]) == Some(x);
        assert messages[k] == p[k];
      }
      if k :| 0 <= k < |messages| && pick(messages[k]) == Some(x) {
        if k < |p| {
          assert messages[k] == p[k];
        }
      }
    }
  }

  /** The set of AccumulateVidops after the messages. */
  function Collect(marker: string, messages: seq<string>): set<string>
  {
    Gather(m => VidopOf(marker, m), messages)
  }

  /** It holds exactly the codes of the messages that carry the marker. */
  lemma CollectSpec(marker: string, messages: seq<string>, x: string)
    ensures x in Collect(marker, messages) <==> exists k :: 0 <= k < |messages| && VidopOf(marker, messages[k]) == Some(x)
  {
    GatherSpec(m => VidopOf(marker, m), messages, x);
  }

  /** A repeated message changes nothing. */
  lemma RepeatCollapses(marker: string, messages: seq<string>, message: string)
    requires message in messages
    ensures Collect(marker, messages + [message]) == Collect(marker, messages)
  {
    GatherRepeat(m => VidopOf(marker, m), messages, message);
  }

  /** Whatever a message adds, once is enough. */
  lemma GatherRepeat(pick: string -> Option<string>, messages: seq<string>, message: string)
    requires message in messages
    ensures Gather(pick, messages + [message]) == Gather(pick, messages)
  {
    var m := messages + [message];
    var k :| 0 <= k < |messages| && messages[k] == message;
    assert m[..|m| - 1] == messages;
    if v :| pick(message) == Some(v) {
      GatherSpec(pick, messages, v);
    }
  }

  /** emit only ever adds, and at most one code. */
  lemma EmitGrows(acc: set<string>, marker: string, message: string)
    ensures acc <= Emitted(acc, marker, message) && |Emitted(acc, marker, message) - acc| <= 1
    ensures marker == "" || !Contains(message, marker) ==> Emitted(acc, marker, message) == acc
  {
    AddGrows(acc, VidopOf(marker, message));
  }

  lemma AddGrows(acc: set<string>, code: Option<string>)
    ensures acc <= Add(acc, code) && |Add(acc, code) - acc| <= 1
    ensures code.None? ==> Add(acc, code) == acc
  {
    match code
    case None =>
      assert Add(acc, code) - acc == {};
    case Some(v) =>
      assert Add(acc, code) - acc <= {v};
  }

  /** What is kept never begins or ends with white space. */
  lemma VidopIsStripped(marker: string, message: string)
    requires VidopOf(marker, message).Some?
    ensures var v := VidopOf(marker, message).value; v == [] || (!IsSpace(v[0]) && !IsSpace(v[|v| - 1]))
  {
    var rest := After(message, marker);
    var l := StripLeft(rest);
    var v := StripRight(l);
    if v != [] {
      assert v[0] == l[0];
    }
  }

  class AccumulateVidops {
    /** service_text */
    const serviceText: string
    /** accumulate */
    var accumulate: set<string>

    /** The accumulated set starts empty. */
    constructor(serviceText: string)
      ensures this.serviceText == serviceText && accumulate == {}
    {
      this.serviceText := serviceText;
      accumulate := {};
    }

    /** emit(record) */
    method Emit(message: string)
      modifies this
      ensures accumulate == Emitted(old(accumulate), serviceText, message)
    {
      if serviceText != "" && Contains(message, serviceText) {
        var vidop := After(message, serviceText);
        accumulate := accumulate + {Strip(vidop)};
      }
    }

    /** output_accumulate() */
    method OutputAccumulate() returns (r: set<string>)
      ensures r == accumulate
    {
      r := accumulate;
    }
  }

  // ------------------------------------------------------------ AccumulateNotProcessedVidops

  /** The marker of the second handler. */
  const NotProcessingVidop: string := "not_processing_vidop"

  /** What emit adds for one message: nothing without the marker, else the
      piece after its first occurrence up to the next one or the end,
      untrimmed. */
  function NotProcessedOf(message: string): (r: Option<string>)
    ensures r.Some? <==> Contains(message, NotProcessingVidop)
  {
    if Contains(message, NotProcessingVidop) then Some(SecondPiece(message, NotProcessingVidop)) else None
  }

  /** The piece kept is the text right after the first marker, holds no
      marker itself, and is followed by the next marker or the end. */
  lemma NotProcessedSpec(message: string)
    requires Contains(message, NotProcessingVidop)
    ensures var i := Find(message, NotProcessingVidop).value;
      var v := NotProcessedOf(message).value;
      var rest := message[i + |NotProcessingVidop|..];
      && v <= rest
      && !Contains(v, NotProcessingVidop)
      && (v == rest || OccursAt(rest, NotProcessingVidop, |v|))
  {
    var m := NotProcessingVidop;
    var i := Find(message, m).value;
    var rest := After(message, m);
    assert rest == message[i + |m|..];
    match Find(rest, m)
    case None =>
    case Some(j) =>
      var v := rest[..j];
      forall k: nat ensures !OccursAt(v, m, k) {
        PrefixOccurs(v, rest, m, k);
      }
  }

  /** An occurrence in a prefix is an occurrence in the whole. */
  lemma PrefixOccurs(v: string, rest: string, m: string, k: nat)
    requires v <= rest
    ensures OccursAt(v, m, k) ==> OccursAt(rest, m, k)
  {
    if k + |m| <= |v| {
      assert v[k..k + |m|] == rest[k..k + |m|];
    }
  }

  function NotProcessedEmitted(acc: set<string>, message: string): set<string>
  {
    Add(acc, NotProcessedOf(message))
  }

  lemma NotProcessedGrows(acc: set<string>, message: string)
    ensures acc <= NotProcessedEmitted(acc, message)
    ensures !Contains(message, NotProcessingVidop) ==> NotProcessedEmitted(acc, message) == acc
  {
  }

  /** The set of AccumulateNotProcessedVidops after the messages: exactly
      the pieces of the messages that carry the marker. */
  lemma NotProcessedCollectSpec(messages: seq<string>, x: string)
    ensures x in Gather(NotProcessedOf, messages) <==>
      exists k :: 0 <= k < |messages| && Contains(messages[k], NotProcessingVidop) && SecondPiece(messages[k], NotProcessingVidop) == x
  {
    GatherSpec(NotProcessedOf, messages, x);
  }

  class AccumulateNotProcessedVidops {
    /** not_processing_vidop */
    const notProcessingVidop: string := NotProcessingVidop
    /** accumulate */
    var accumulate: set<string>

    /** The accumulated set starts empty. */
    constructor()
      ensures accumulate == {}
    {
      accumulate := {};
    }

    /** emit(record) */
    method Emit(message: string)
      modifies this
      ensures accumulate == NotProcessedEmitted(old(accumulate), message)
    {
      if Contains(message, notProcessingVidop) {
        var vidop := SecondPiece(message, notProcessingVidop);
        accumulate := accumulate + {vidop};
      }
    }

    /** output_accumulate() */
    method OutputAccumulate() returns (r: set<string>)
      ensures r == accumulate
    {
      r := accumulate;
    }
  }

  // ------------------------------------------------------------ the example of the module documentation

  lemma SystemEvent(code: string)
    requires code == "1234" || code == "5678"
    ensures VidopOf("VIDOP:", "System event " + "VIDOP:" + code) == Some(code)
  {
    assert "VIDOP:"[0] !in "System event ";
    FirstOccurrence("System event ", "VIDOP:", code);
    assert !IsSpace(code[0]) && !IsSpace(code[3]);
  }

  /** Two warnings with VIDOP:1234 and VIDOP:5678 leave {'1234', '5678'}. */
  method DocExample() returns (out: set<string>)
    ensures out == {"1234", "5678"}
  {
    var h := new AccumulateVidops("VIDOP:");
    SystemEvent("1234");
    SystemEvent("5678");
    h.Emit("System event " + "VIDOP:" + "1234");
    h.Emit("System event " + "VIDOP:" + "5678");
    out := h.OutputAccumulate();
  }
}
