/**
 The guard between the model's streamed text and the client
 (internal/agent/textguard.go). The first half gives the guard as a value, so
 that whole runs can be reasoned about; the class below it works on fields, as
 the source does, and is proved against that value.
 */
module GuardState {
  import opened Util
  import opened Text
  import opened LineFeed

  datatype Brackets = Brackets(depth: int, inStr: bool, esc: bool)

  const NO_BRACKETS := Brackets(0, false, false)

  /** What a repair makes of a JSON region: the text, and how many values it rewrote. */
  datatype Fix = Fix(text: string, count: nat)

  type Fixer = string -> Fix

  /** Where the guard stands between two chunks. */
  datatype Phase =
    | AtLine(line: string, inFence: bool)              // the line so far is held
    | Passing(inFence: bool)                           // its start was released
    | InFenced(open: string, body: string, line: string)
    | InRaw(region: string, brackets: Brackets, line: string)

  datatype Guard = Guard(phase: Phase, fixes: nat)

  const FRESH := Guard(AtLine("", false), 0)

  const FENCE := "```"

  // ------------------------------------------------------------- line decisions

  /** Could an incomplete line still open a region? */
  predicate MightStartRegion(line: string, inFence: bool) {
    var t := TrimIndent(line);
    t == "" || HasPrefix(FENCE, t) || HasPrefix(t, FENCE) || (!inFence && (t[0] == '{' || t[0] == '['))
  }

  /** Does a trimmed line look like the start of a JSON object or array? */
  predicate StartsRawJSON(t: string) {
    if t == "" then false
    else if t[0] == '{' then true
    else if t[0] == '[' then
      var rest := TrimSpace(t[1..]);
      rest == "" || rest[0] in "{[\""
    else false
  }

  /** Does a trimmed line that begins with a fence open a JSON block? */
  predicate OpensJSON(t: string)
    requires HasPrefix(t, FENCE)
  {
    ToLower(TrimSpace(t[3..])) in ["", "json", "jsonc", "json5"]
  }

  predicate LooksLikeJSON(body: string) {
    var t := TrimSpace(body);
    HasPrefix(t, "{") || HasPrefix(t, "[")
  }

  /** The bracket state after reading `line`. */
  function Scanned(b: Brackets, line: string): Brackets
    decreases |line|
  {
    if line == "" then b else Scanned(ScanChar(b, line[0]), line[1..])
  }

  function ScanChar(b: Brackets, c: char): Brackets {
    if b.inStr then
      if b.esc then b.(esc := false)
      else if c == '\\' then b.(esc := true)
      else if c == '"' then b.(inStr := false)
      else b
    else if c == '"' then b.(inStr := true)
    else if c == '{' || c == '[' then b.(depth := b.depth + 1)
    else if c == '}' || c == ']' then b.(depth := b.depth - 1)
    else b
  }

  lemma {:induction false} ScannedSnoc(b: Brackets, line: string, c: char)
    ensures Scanned(b, line + [c]) == ScanChar(Scanned(b, line), c)
    decreases |line|
  {
    if line == "" {
      assert line + [c] == [c] && [c][1..] == "";
    } else {
      assert (line + [c])[1..] == line[1..] + [c];
      ScannedSnoc(ScanChar(b, line[0]), line[1..], c);
    }
  }

  // ------------------------------------------------------------------ one segment

  function Body(body: string, fix: Fixer): Fix {
    if LooksLikeJSON(body) then fix(body) else Fix(body, 0)
  }

  function EndFenced(open: string, body: string, close: string, fixes: nat, fix: Fixer): Step<Guard> {
    var fixed := Body(body, fix);
    Step(Guard(AtLine("", false), fixes + fixed.count), open + fixed.text + close)
  }

  function EndRaw(region: string, fixes: nat, fix: Fixer): Step<Guard> {
    var fixed := fix(region);
    Step(Guard(AtLine("", false), fixes + fixed.count), fixed.text)
  }

  /** A complete raw line has been read: the region ends once its brackets balance. */
  function RawLine(region: string, b: Brackets, fixes: nat, fix: Fixer): Step<Guard> {
    if b.depth <= 0 then EndRaw(region, fixes, fix)
    else Step(Guard(InRaw(region, b, ""), fixes), "")
  }

  /** A complete line that begins with a fence, `t` being the trimmed line. */
  function FenceLine(line: string, t: string, inFence: bool, fixes: nat): Step<Guard>
    requires HasPrefix(t, FENCE)
  {
    if inFence then Step(Guard(AtLine("", false), fixes), line)
    else if OpensJSON(t) then Step(Guard(InFenced(line, "", ""), fixes), "")
    else Step(Guard(AtLine("", true), fixes), line)
  }

  /** One complete line while not inside a region. */
  function StartOrPass(line: string, inFence: bool, fixes: nat, fix: Fixer): Step<Guard> {
    var t := TrimSpace(line);
    if HasPrefix(t, FENCE) then FenceLine(line, t, inFence, fixes)
    else if !inFence && StartsRawJSON(t) then RawLine(line, Scanned(NO_BRACKETS, line), fixes, fix)
    else Step(Guard(AtLine("", inFence), fixes), line)
  }

  /** A complete line inside a fenced region. */
  function FencedLine(open: string, body: string, line: string, fixes: nat, fix: Fixer): Step<Guard> {
    if TrimSpace(line) == FENCE then EndFenced(open, body, line, fixes, fix)
    else Step(Guard(InFenced(open, body + line, ""), fixes), "")
  }

  /** An incomplete line outside a region is held or released. */
  function HoldOrPass(line: string, inFence: bool, fixes: nat): Step<Guard> {
    if MightStartRegion(line, inFence) then Step(Guard(AtLine(line, inFence), fixes), "")
    else Step(Guard(Passing(inFence), fixes), line)
  }

  /** A segment of one line; `complete` says that it ends the line. */
  function Consumed(g: Guard, seg: string, complete: bool, fix: Fixer): Step<Guard> {
    match g.phase
    case InFenced(open, body, line) =>
      if !complete then Step(g.(phase := InFenced(open, body, line + seg)), "")
      else FencedLine(open, body, line + seg, g.fixes, fix)
    case InRaw(region, b, line) =>
      if !complete then Step(g.(phase := InRaw(region, b, line + seg)), "")
      else RawLine(region + (line + seg), Scanned(b, line + seg), g.fixes, fix)
    case Passing(inFence) =>
      Step(g.(phase := if complete then AtLine("", inFence) else Passing(inFence)), seg)
    case AtLine(line, inFence) =>
      if complete then StartOrPass(line + seg, inFence, g.fixes, fix)
      else HoldOrPass(line + seg, inFence, g.fixes)
  }

  /** The guard as a consumer of line segments. */
  function Consuming(fix: Fixer): Consumer<Guard> {
    (g, seg, complete) => Consumed(g, seg, complete, fix)
  }

  /** What is released when the text block ends. */
  function Flushed(g: Guard, fix: Fixer): Step<Guard> {
    match g.phase
    case InFenced(open, body, line) => EndFenced(open, body + line, "", g.fixes, fix)
    case InRaw(region, b, line) => EndRaw(region + line, g.fixes, fix)
    case Passing(inFence) => Step(g.(phase := AtLine("", inFence)), "")
    case AtLine(line, inFence) => Step(g.(phase := AtLine("", inFence)), line)
  }
}

module TextGuard {
  import opened Util
  import opened Text
  import opened JsonRepair
  import opened LineFeed
  import opened GuardState

  /** The repair the guard applies to a region. */
  function RepairWith(eval: Evaluator): Fixer {
    s => Fix(Repaired(s, eval), Fixes(s, eval))
  }

  datatype Mode = ModePass | ModeFenced | ModeRaw

  class StreamGuard {
    const eval: Evaluator
    var mode: Mode
    var line: string        // current incomplete line, held while undecided
    var partial: bool       // the start of the current line has been released
    var inFence: bool       // inside a fenced block that is not JSON
    var regionOpen: string  // the opening fence line
    var region: string      // region body, or the whole region when raw
    var depth: int
    var inStr: bool
    var esc: bool
    var fixes: nat

    ghost predicate Valid()
      reads this
    {
      && (partial ==> mode == ModePass && line == "")
      && (mode != ModePass ==> !inFence)
    }

    /** The state the fields stand for. */
    ghost function State(): Guard
      reads this
    {
      Guard(match mode
            case ModePass => if partial then Passing(inFence) else AtLine(line, inFence)
            case ModeFenced => InFenced(regionOpen, region, line)
            case ModeRaw => InRaw(region, Brackets(depth, inStr, esc), line),
            fixes)
    }

    constructor (eval: Evaluator)
      ensures Valid() && State() == FRESH && this.eval == eval
    {
      this.eval := eval;
      mode, line, partial, inFence := ModePass, "", false, false;
      regionOpen, region, depth, inStr, esc, fixes := "", "", 0, false, false, 0;
    }

    /** A streamed chunk: the text that is now safe to send. */
    method Feed(chunk: string) returns (out: string)
      requires Valid()
      modifies this
      ensures Valid()
      ensures Step(State(), out) == Fed(Consuming(RepairWith(eval)), old(State()), chunk)
    {
      out := "";
      var rest := chunk;
      while rest != ""
        invariant Valid()
        invariant Fed(Consuming(RepairWith(eval)), old(State()), chunk) ==
                  Then(Step(State(), out), Fed(Consuming(RepairWith(eval)), State(), rest))
        decreases |rest|
      {
        var n := FirstLine(rest);
        ghost var before := Step(State(), out);
        var written := Consume(rest[..n], IsComplete(rest[..n]));
        ThenAssociates(before, Step(State(), written), Fed(Consuming(RepairWith(eval)), State(), rest[n..]));
        out := out + written;
        rest := rest[n..];
      }
    }

    /** Releases everything still held. */
    method Flush() returns (out: string)
      requires Valid()
      modifies this
      ensures Valid()
      ensures Step(State(), out) == Flushed(old(State()), RepairWith(eval))
    {
      match mode {
        case ModePass =>
          out := line;
        case ModeFenced =>
          region := region + line;
          out := CloseFenced("");
        case ModeRaw =>
          region := region + line;
          out := CloseRaw();
      }
      line := "";
      partial := false;
    }

    method Consume(seg: string, complete: bool) returns (out: string)
      requires Valid()
      modifies this
      ensures Valid()
      ensures Step(State(), out) == Consumed(old(State()), seg, complete, RepairWith(eval))
    {
      match mode {
        case ModeFenced => out := ConsumeFenced(seg, complete);
        case ModeRaw => out := ConsumeRaw(seg, complete);
        case ModePass => out := ConsumePass(seg, complete);
      }
    }

    method ConsumeFenced(seg: string, complete: bool) returns (out: string)
      requires Valid() && mode == ModeFenced
      modifies this
      ensures Valid()
      ensures Step(State(), out) == Consumed(old(State()), seg, complete, RepairWith(eval))
    {
      line := line + seg;
      out := "";
      if complete {
        var whole := line;
        line := "";
        out := ContinueFenced(whole);
      }
    }

    /** A complete line of the region: its closing fence, or one more line of its body. */
    method ContinueFenced(last: string) returns (out: string)
      requires mode == ModeFenced && line == "" && !partial && !inFence
      modifies `region, `regionOpen, `mode, `fixes
      ensures mode != ModeRaw
      ensures Step(State(), out) == FencedLine(old(regionOpen), old(region), last, old(fixes), RepairWith(eval))
    {
      out := "";
      if TrimSpace(last) == FENCE {
        out := CloseFenced(last);
      } else {
        region := region + last;
      }
    }

    method ConsumeRaw(seg: string, complete: bool) returns (out: string)
      requires Valid() && mode == ModeRaw
      modifies this
      ensures Valid()
      ensures Step(State(), out) == Consumed(old(State()), seg, complete, RepairWith(eval))
    {
      line := line + seg;
      out := "";
      if complete {
        var whole := line;
        line := "";
        region := region + whole;
        out := ContinueRaw(whole);
      }
    }

    /** The last line of the region is scanned; a balanced region is released. */
    method ContinueRaw(last: string) returns (out: string)
      requires mode == ModeRaw && line == "" && !partial && !inFence
      modifies `region, `mode, `fixes, `depth, `inStr, `esc
      ensures mode != ModeFenced
      ensures Step(State(), out) ==
              RawLine(old(region), Scanned(old(Brackets(depth, inStr, esc)), last), old(fixes), RepairWith(eval))
    {
      ScanRaw(last);
      out := "";
      if depth <= 0 {
        out := CloseRaw();
      }
    }

    method ConsumePass(seg: string, complete: bool) returns (out: string)
      requires Valid() && mode == ModePass
      modifies this
      ensures Valid()
      ensures Step(State(), out) == Consumed(old(State()), seg, complete, RepairWith(eval))
    {
      if partial {
        partial := !complete;
        return seg;
      }
      line := line + seg;
      if !complete {
        if MightStartRegion(line, inFence) {
          return "";
        }
        out := line;
        line := "";
        partial := true;
        return;
      }
      var whole := line;
      line := "";
      out := Start(whole);
    }

    /** One complete line while not inside a region. */
    method Start(whole: string) returns (out: string)
      requires Valid() && mode == ModePass && !partial && line == ""
      modifies this
      ensures Valid()
      ensures Step(State(), out) == StartOrPass(whole, old(inFence), old(fixes), RepairWith(eval))
    {
      var t := TrimSpace(whole);
      if HasPrefix(t, FENCE) {
        out := StartFence(whole, t);
      } else if !inFence && StartsRawJSON(t) {
        out := StartRaw(whole);
      } else {
        out := whole;
      }
    }

    method StartRaw(whole: string) returns (out: string)
      requires mode == ModePass && !partial && line == "" && !inFence
      modifies `region, `mode, `fixes, `depth, `inStr, `esc
      ensures mode != ModeFenced
      ensures Step(State(), out) == RawLine(whole, Scanned(NO_BRACKETS, whole), old(fixes), RepairWith(eval))
    {
      mode, region := ModeRaw, whole;
      depth, inStr, esc := 0, false, false;
      out := ContinueRaw(whole);
    }

    method StartFence(whole: string, t: string) returns (out: string)
      requires mode == ModePass && !partial && line == "" && HasPrefix(t, FENCE)
      modifies `mode, `inFence, `regionOpen, `region
      ensures mode != ModePass ==> !inFence
      ensures Step(State(), out) == FenceLine(whole, t, old(inFence), old(fixes))
    {
      if inFence {
        inFence := false;
        return whole;
      }
      if OpensJSON(t) {
        mode, regionOpen, region := ModeFenced, whole, "";
        return "";
      }
      inFence := true;
      return whole;
    }

    /** Advances the bracket state over a line of a raw region. */
    method ScanRaw(whole: string)
      modifies `depth, `inStr, `esc
      ensures Brackets(depth, inStr, esc) == Scanned(old(Brackets(depth, inStr, esc)), whole)
    {
      var i := 0;
      while i < |whole|
        invariant 0 <= i <= |whole|
        invariant Brackets(depth, inStr, esc) == Scanned(old(Brackets(depth, inStr, esc)), whole[..i])
      {
        var c := whole[i];
        assert whole[..i + 1] == whole[..i] + [c];
        ScannedSnoc(old(Brackets(depth, inStr, esc)), whole[..i], c);
        if inStr {
          if esc {
            esc := false;
          } else if c == '\\' {
            esc := true;
          } else if c == '"' {
            inStr := false;
          }
        } else if c == '"' {
          inStr := true;
        } else if c == '{' || c == '[' {
          depth := depth + 1;
        } else if c == '}' || c == ']' {
          depth := depth - 1;
        }
        i := i + 1;
      }
      assert whole[..|whole|] == whole;
    }

    /** Releases a raw region, repaired. */
    method CloseRaw() returns (out: string)
      requires mode == ModeRaw
      modifies `region, `mode, `fixes
      ensures mode == ModePass
      ensures Step(Guard(AtLine("", false), fixes), out) == EndRaw(old(region), old(fixes), RepairWith(eval))
    {
      var n;
      out, n := RepairJSONExpressions(region, eval);
      fixes := fixes + n;
      region := "";
      mode := ModePass;
    }

    /** Releases a fenced region; `closeLine` is empty when no closing fence arrived. */
    method CloseFenced(closeLine: string) returns (out: string)
      requires mode == ModeFenced
      modifies `region, `regionOpen, `mode, `fixes
      ensures mode == ModePass
      ensures Step(Guard(AtLine("", false), fixes), out) ==
              EndFenced(old(regionOpen), old(region), closeLine, old(fixes), RepairWith(eval))
    {
      var body := region;
      if LooksLikeJSON(body) {
        var n;
        body, n := RepairJSONExpressions(body, eval);
        fixes := fixes + n;
      }
      out := regionOpen + body + closeLine;
      region := "";
      regionOpen := "";
      mode := ModePass;
    }
  }
}
