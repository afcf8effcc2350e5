/** The phone-scanner time clock: the keystrokes a scanner types are
    collected until Enter, the barcode is sent to the server, and the reply
    is shown for a while before the screen returns to its prompt.  The
    server's handling of the scan is an input here. */
module BarcodeKiosk {
  import opened Wrappers

  datatype Mode = Ready | Success | Error

  /** The screen.  `current` is the project the user is clocked into, when
      known. */
  datatype Screen = Screen(mode: Mode, current: Option<string>, message: string, subMessage: string,
                           buffer: string)

  const Prompt: string := "Scan PROJECT barcode"
  const Check: string := "\U{2705} "
  const Cross: string := "\U{274C} "

  /** The screen as it opens. */
  const Opening: Screen := Screen(Ready, None, Prompt, "", "")

  /** `loadCurrentStatus`, given the user's active punch as the project
      name it carries (`None` inside when the punch has no project), or no
      punch at all.  The message falls back to "Unknown project" whenever
      the name is falsy: missing, or the empty string. */
  function LoadStatus(s: Screen, punch: Option<Option<string>>): (r: Screen)
    ensures punch.None? ==> r == s
    ensures punch.Some? ==>
      && r.current == punch.value
      && r.subMessage == "Currently: " + (if punch.value.Some? && punch.value.value != "" then punch.value.value else "Unknown project")
    ensures r == s.(current := r.current, subMessage := r.subMessage)
  {
    match punch
    case None => s
    case Some(p) => s.(current := p, subMessage := "Currently: " + (if p.Some? && p.value != "" then p.value else "Unknown project"))
  }

  /** `onKeyDown`, for a key with the given name: Enter hands over the
      collected barcode, if any, and empties the buffer; a one-character
      key is collected; a named key (Shift, Tab, ...) is ignored.  The
      second result is the barcode to process. */
  function KeyDown(s: Screen, key: string): (r: (Screen, Option<string>))
    ensures key == "Enter" && s.buffer != "" ==> r == (s.(buffer := ""), Some(s.buffer))
    ensures key == "Enter" && s.buffer == "" ==> r == (s, None)
    ensures key != "Enter" && |key| == 1 ==> r == (s.(buffer := s.buffer + key), None)
    ensures key != "Enter" && |key| != 1 ==> r == (s, None)
  {
    if key == "Enter" then
      if |s.buffer| > 0 then (s.(buffer := ""), Some(s.buffer)) else (s, None)
    else if |key| == 1 then (s.(buffer := s.buffer + key), None)
    else (s, None)
  }

  /** The keys a scanner types for a barcode: one per character. */
  function Keys(code: string): (ks: seq<string>)
    ensures |ks| == |code|
    ensures forall i :: 0 <= i < |code| ==> ks[i] == [code[i]]
  {
    seq(|code|, i requires 0 <= i < |code| => [code[i]])
  }

  /** The screen after a run of keys, and the barcodes handed over on the
      way, in order. */
  function Type(s: Screen, keys: seq<string>): (Screen, seq<string>)
    decreases |keys|
  {
    if |keys| == 0 then (s, [])
    else
      var step := KeyDown(s, keys[0]);
      var rest := Type(step.0, keys[1..]);
      (rest.0, Handed(step.1) + rest.1)
  }

  function Handed(c: Option<string>): seq<string> {
    if c.Some? then [c.value] else []
  }

  /** Typing the characters of a barcode collects them after what was
      already in the buffer, handing nothing over. */
  lemma {:induction false} TypeCollects(s: Screen, code: string)
    ensures Type(s, Keys(code)) == (s.(buffer := s.buffer + code), [])
    decreases |code|
  {
    if |code| == 0 {
      assert s.buffer + code == s.buffer;
    } else {
      var ks := Keys(code);
      var t := s.(buffer := s.buffer + [code[0]]);
      assert ks[0] == [code[0]] && ks[0] != "Enter";
      assert KeyDown(s, ks[0]) == (t, None);
      assert ks[1..] == Keys(code[1..]);
      TypeCollects(t, code[1..]);
      assert t.buffer + code[1..] == s.buffer + code;
      assert Type(s, ks) == (Type(t, ks[1..]).0, Handed(None) + Type(t, ks[1..]).1);
      assert Handed(None) + Type(t, ks[1..]).1 == [];
    }
  }

  /** A scan from an empty buffer hands over exactly the scanned code, once,
      and leaves the buffer empty for the next one. */
  lemma {:induction false} ScanDelivers(s: Screen, code: string)
    requires s.buffer == "" && code != ""
    ensures Type(s, Keys(code) + ["Enter"]) == (s, [code])
  {
    var ks := Keys(code) + ["Enter"];
    TypeAppend(s, Keys(code), ["Enter"]);
    TypeCollects(s, code);
    assert s.buffer + code == code;
    var t := s.(buffer := code);
    assert Type(t, ["Enter"]) == (s, [code]) by {
      assert KeyDown(t, "Enter") == (s, Some(code));
      assert ["Enter"][1..] == [];
      assert Type(s, []) == (s, []);
      assert Handed(Some(code)) + [] == [code];
      assert Type(t, ["Enter"]).0 == s;
      assert Type(t, ["Enter"]).1 == [code];
    }
    assert Type(s, Keys(code)) == (t, []);
    assert [] + [code] == [code];
  }

  lemma {:induction false} TypeAppend(s: Screen, a: seq<string>, b: seq<string>)
    ensures Type(s, a + b) == (Type(Type(s, a).0, b).0, Type(s, a).1 + Type(Type(s, a).0, b).1)
    decreases |a|
  {
    if |a| == 0 {
      assert a + b == b;
      assert Type(s, a) == (s, []);
      assert [] + Type(s, b).1 == Type(s, b).1;
    } else {
      assert (a + b)[0] == a[0];
      assert (a + b)[1..] == a[1..] + b;
      var h := Handed(KeyDown(s, a[0]).1);
      TypeAppend(KeyDown(s, a[0]).0, a[1..], b);
      var t := KeyDown(s, a[0]).0;
      assert Type(s, a + b) == (Type(t, a[1..] + b).0, h + Type(t, a[1..] + b).1);
      assert Type(s, a) == (Type(t, a[1..]).0, h + Type(t, a[1..]).1);
      assert h + Type(t, a[1..]).1 + Type(Type(t, a[1..]).0, b).1
          == h + (Type(t, a[1..]).1 + Type(Type(t, a[1..]).0, b).1);
    }
  }

  /** What the server said about a scan. */
  datatype Outcome = SwitchedFrom(previous: string) | AlreadyIn | ClockedIn

  /** The reply: the call failed, the scan was refused with a message, or
      it succeeded with the project's name and what happened. */
  datatype Reply = CallFailed | Refused(message: string) | Accepted(project: string, outcome: Outcome)

  /** `processBarcode`: the reply shown. */
  function Process(s: Screen, reply: Reply): (r: Screen)
    ensures r.mode == Success <==> reply.Accepted?
    ensures r.buffer == s.buffer
    ensures reply.Accepted? ==> r.current == Some(reply.project)
    ensures !reply.Accepted? ==> r.current == s.current && r.subMessage == ""
    ensures reply.CallFailed? ==> r.message == Cross + "Error processing barcode"
    ensures reply.Refused? ==> r.message == Cross + reply.message
    ensures reply.Accepted? && reply.outcome.SwitchedFrom? ==>
      r.message == Check + "Switched to " + reply.project && r.subMessage == "From: " + reply.outcome.previous
    ensures reply.Accepted? && reply.outcome.AlreadyIn? ==>
      r.message == "Already on " + reply.project && r.subMessage == ""
    ensures reply.Accepted? && reply.outcome.ClockedIn? ==>
      r.message == Check + "Clocked into " + reply.project && r.subMessage == ""
  {
    match reply
    case CallFailed => s.(mode := Error, message := Cross + "Error processing barcode", subMessage := "")
    case Refused(m) => s.(mode := Error, message := Cross + m, subMessage := "")
    case Accepted(p, o) =>
      var t := s.(mode := Success, current := Some(p));
      match o
      case SwitchedFrom(prev) => t.(message := Check + "Switched to " + p, subMessage := "From: " + prev)
      case AlreadyIn => t.(message := "Already on " + p, subMessage := "")
      case ClockedIn => t.(message := Check + "Clocked into " + p, subMessage := "")
  }

  /** `reset`: back to the prompt, under the current project when there is
      one. */
  function Reset(s: Screen): (r: Screen)
    ensures r.mode == Ready && r.message == Prompt
    ensures s.current.Some? && s.current.value != "" ==> r.subMessage == "Currently: " + s.current.value
    ensures s.current.None? || s.current.value == "" ==> r.subMessage == ""
    ensures r == s.(mode := r.mode, message := r.message, subMessage := r.subMessage)
  {
    s.(mode := Ready, message := Prompt,
       subMessage := if s.current.Some? && s.current.value != "" then "Currently: " + s.current.value else "")
  }

  /** Loading the status twice is loading it once; a punch on a project
      with an empty name reads "Unknown project" like a punch without
      one; and once the screen resets, a known project is shown under the
      prompt with the same "Currently: " line, while an unknown one shows
      nothing. */
  lemma LoadStatusFacts(s: Screen, punch: Option<Option<string>>)
    ensures LoadStatus(LoadStatus(s, punch), punch) == LoadStatus(s, punch)
    ensures LoadStatus(s, Some(Some(""))).subMessage == LoadStatus(s, Some(None)).subMessage
                                                   == "Currently: Unknown project"
    ensures punch.Some? && punch.value.Some? && punch.value.value != "" ==>
      Reset(LoadStatus(s, punch)).subMessage == LoadStatus(s, punch).subMessage
    ensures punch.Some? && (punch.value.None? || punch.value.value == "") ==>
      Reset(LoadStatus(s, punch)).subMessage == ""
  {
  }

  /** After a reply and the reset that follows it, the screen is ready
      again, and the project reported by an accepted scan is the one shown
      under the prompt; a refused scan leaves the previous one. */
  lemma AfterReset(s: Screen, reply: Reply)
    ensures Reset(Process(s, reply)).mode == Ready
    ensures Reset(Reset(Process(s, reply))) == Reset(Process(s, reply))
    ensures reply.Accepted? && reply.project != "" ==>
      Reset(Process(s, reply)).subMessage == "Currently: " + reply.project
    ensures !reply.Accepted? ==> Reset(Process(s, reply)).subMessage == Reset(s).subMessage
  {
  }
}
