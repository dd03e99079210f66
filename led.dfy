/**
 * The RGB LED as the sketch sees it: the calls it makes on the LED driver,
 * the status payload it publishes, and how it reads an inbound command.
 * The driver itself is not modelled: how the LED reacts to a call is a
 * parameter `respond` wherever it matters.
 */
module Led {
  import opened Base

  /** What `getState()` and `getColor()` report. */
  datatype LedView = LedView(on: bool, color: Rgb)

  /** The calls the sketch makes on the LED driver; `Refresh` is the driver's own `loop()`. */
  datatype LedAction =
    | On
    | Off
    | Commute
    | SetColor(color: Rgb)
    | SetColorOver(color: Rgb, seconds: u16)
    | Refresh

  /** The driver's reaction to a sequence of calls, one call at a time. */
  function ApplyAll(respond: (LedView, LedAction) -> LedView, v: LedView, ops: seq<LedAction>): LedView
    decreases |ops|
  {
    if ops == [] then v else ApplyAll(respond, respond(v, ops[0]), ops[1..])
  }

  /** The status payload: the state, and the colour only when the LED is on. */
  datatype LedStatus = StatusOn(color: Rgb) | StatusOff

  /** The payload `publishStateRgbLED` builds from what the LED reports. */
  function StatusOf(v: LedView): (p: LedStatus)
    ensures p.StatusOn? <==> v.on
    ensures p.StatusOn? ==> p.color == v.color
  {
    if v.on then StatusOn(v.color) else StatusOff
  }

  /** A decimal digit character. */
  predicate IsDigit(ch: char) {
    '0' <= ch <= '9'
  }

  /** The decimal digits of `n`, most significant first, without leading zeros. */
  function Decimal(n: nat): (r: string)
    ensures |r| >= 1
    ensures forall i :: 0 <= i < |r| ==> IsDigit(r[i])
  {
    var d := ['0' + (n % 10) as char];
    if n < 10 then d else Decimal(n / 10) + d
  }

  /** The number a string of decimal digits denotes. */
  function Value(s: string): nat
    requires forall i :: 0 <= i < |s| ==> IsDigit(s[i])
    decreases |s|
  {
    if s == [] then 0
    else
      assert IsDigit(s[|s| - 1]);
      Value(s[..|s| - 1]) * 10 + (s[|s| - 1] as int - '0' as int)
  }

  /** The digits `Decimal` writes denote the number written. */
  lemma {:induction false} DecimalValue(n: nat)
    ensures Value(Decimal(n)) == n
    decreases n
  {
    if n >= 10 {
      DecimalValue(n / 10);
      var s := Decimal(n);
      assert s[..|s| - 1] == Decimal(n / 10);
    }
  }

  /** The payload as serialised compactly, keys in insertion order. */
  function StatusJson(p: LedStatus): (r: string)
    ensures |r| >= 2 && r[0] == '{' && r[|r| - 1] == '}'
  {
    match p
    case StatusOff => "{\"state\":\"OFF\"}"
    case StatusOn(c) =>
      "{\"state\":\"ON\",\"color\":{\"r\":" + (Decimal(c.red as nat) + (",\"g\":" + (Decimal(c.green as nat)
      + (",\"b\":" + (Decimal(c.blue as nat) + "}}")))))
  }

  /**
   * A run of digits followed by a non-digit splits off uniquely: two such
   * strings are equal only when their digit runs and their rests are.
   */
  lemma DigitsSplit(a: string, x: string, b: string, y: string)
    requires forall i :: 0 <= i < |a| ==> IsDigit(a[i])
    requires forall i :: 0 <= i < |b| ==> IsDigit(b[i])
    requires |x| > 0 && !IsDigit(x[0]) && |y| > 0 && !IsDigit(y[0])
    requires a + x == b + y
    ensures a == b && x == y
  {
    assert a == (a + x)[..|a|] && b == (b + y)[..|b|];
    assert x == (a + x)[|a|..] && y == (b + y)[|b|..];
  }

  /** Two numbers written in decimal, each followed by the same kind of rest, are equal when the texts are. */
  lemma NumberSplit(m: nat, x: string, n: nat, y: string)
    requires |x| > 0 && !IsDigit(x[0]) && |y| > 0 && !IsDigit(y[0])
    requires Decimal(m) + x == Decimal(n) + y
    ensures m == n && x == y
  {
    DigitsSplit(Decimal(m), x, Decimal(n), y);
    DecimalValue(m);
    DecimalValue(n);
  }

  /** A common prefix can be dropped from both sides of an equation. */
  lemma DropPrefix(p: string, u: string, v: string)
    requires p + u == p + v
    ensures u == v
  {
    assert u == (p + u)[|p|..] && v == (p + v)[|p|..];
  }

  /** Different payloads are published as different texts, so the text determines the state and the colour. */
  lemma StatusJsonInjective(p: LedStatus, q: LedStatus)
    requires StatusJson(p) == StatusJson(q)
    ensures p == q
  {
    var onPrefix := "{\"state\":\"ON\",\"color\":{\"r\":";
    match p {
      case StatusOff =>
      case StatusOn(c) =>
        if q.StatusOn? {
          var d := q.color;
          var G, B := ",\"g\":", ",\"b\":";
          DropPrefix(onPrefix,
            Decimal(c.red as nat) + (G + (Decimal(c.green as nat) + (B + (Decimal(c.blue as nat) + "}}")))),
            Decimal(d.red as nat) + (G + (Decimal(d.green as nat) + (B + (Decimal(d.blue as nat) + "}}")))));
          NumberSplit(c.red as nat, G + (Decimal(c.green as nat) + (B + (Decimal(c.blue as nat) + "}}"))),
                      d.red as nat, G + (Decimal(d.green as nat) + (B + (Decimal(d.blue as nat) + "}}"))));
          DropPrefix(G, Decimal(c.green as nat) + (B + (Decimal(c.blue as nat) + "}}")),
                        Decimal(d.green as nat) + (B + (Decimal(d.blue as nat) + "}}")));
          NumberSplit(c.green as nat, B + (Decimal(c.blue as nat) + "}}"), d.green as nat, B + (Decimal(d.blue as nat) + "}}"));
          DropPrefix(B, Decimal(c.blue as nat) + "}}", Decimal(d.blue as nat) + "}}");
          NumberSplit(c.blue as nat, "}}", d.blue as nat, "}}");
        }
    }
  }

  /** The bare payload that toggles the LED. */
  const Toggle: string := "TOGGLE"

  /**
   * An inbound message on the LED command topic: its raw text, and the fields
   * the JSON parser found in it (none when the text is not a JSON object);
   * the colour and the transition are already narrowed to their integer types.
   */
  datatype Command = Command(text: string, state: Option<string>, color: Option<Rgb>, transition: Option<u16>)

  /** A colour change that fades over a transition time. */
  predicate IsFade(op: LedAction) {
    op.SetColorOver?
  }

  /**
   * The LED calls `MQTTcallback` makes for a message on the command topic:
   * a bare "TOGGLE" only commutes; otherwise a `state` of "ON" switches the
   * LED on and any other `state` switches it off, then a `color` sets the
   * colour, over the transition time when one is given; an absent key makes
   * no call.
   */
  function CommandOps(c: Command): (ops: seq<LedAction>)
    ensures c.text == Toggle ==> ops == [Commute]
    ensures c.text != Toggle ==> |ops| == (if c.state.Some? then 1 else 0) + (if c.color.Some? then 1 else 0)
    ensures c.text != Toggle && c.state.Some? ==> ops[0] == (if c.state.value == "ON" then On else Off)
    ensures c.text != Toggle && c.color.Some? ==>
      ops[|ops| - 1] == (if c.transition.Some? then SetColorOver(c.color.value, c.transition.value) else SetColor(c.color.value))
  {
    if c.text == Toggle then [Commute]
    else
      var stateOps := match c.state
        case None => []
        case Some(s) => if s == "ON" then [On] else [Off];
      var colorOps := match c.color
        case None => []
        case Some(rgb) => match c.transition
          case None => [SetColor(rgb)]
          case Some(t) => [SetColorOver(rgb, t)];
      stateOps + colorOps
  }

  /** A command commutes the LED exactly when it is the bare "TOGGLE", and then makes no other call. */
  lemma CommuteOnlyOnToggle(c: Command)
    ensures Commute in CommandOps(c) <==> c.text == Toggle
    ensures c.text == Toggle ==> |CommandOps(c)| == 1
  {
  }

  /** A fading colour change happens exactly when a JSON command carries both `color` and `transition`. */
  lemma FadeIffTransition(c: Command)
    ensures (exists i :: 0 <= i < |CommandOps(c)| && IsFade(CommandOps(c)[i]))
       <==> c.text != Toggle && c.color.Some? && c.transition.Some?
  {
    var ops := CommandOps(c);
    if c.text != Toggle && c.color.Some? && c.transition.Some? {
      assert IsFade(ops[|ops| - 1]);
    }
  }

  /** The command a status payload reads as when it comes back on the command topic. */
  function EchoOf(p: LedStatus): Command {
    match p
    case StatusOn(c) => Command(StatusJson(p), Some("ON"), Some(c), None)
    case StatusOff => Command(StatusJson(p), Some("OFF"), None, None)
  }

  /** A status payload taken back as a command switches the LED to that state and colour, and does no more. */
  lemma EchoCommandOps(p: LedStatus)
    ensures CommandOps(EchoOf(p)) == match p case StatusOn(c) => [On, SetColor(c)] case StatusOff => [Off]
  {
    assert StatusJson(p) != Toggle by {
      assert StatusJson(p)[0] != Toggle[0];
    }
  }

  /**
   * A reference LED that obeys its calls literally: on and off set the state,
   * the colour calls set the colour (the target one, for a fade), commute
   * flips the state. The sketch relies on none of this; it serves to state
   * what the sketch achieves when the driver behaves so.
   */
  function LiteralLed(v: LedView, op: LedAction): LedView {
    match op
    case On => v.(on := true)
    case Off => v.(on := false)
    case Commute => v.(on := !v.on)
    case SetColor(c) => v.(color := c)
    case SetColorOver(c, _) => v.(color := c)
    case Refresh => v
  }

  /**
   * With a literal LED, the status published after a state change, received
   * again as a command, reproduces that same status from whatever the LED
   * showed meanwhile.
   */
  lemma EchoReproducesStatus(v: LedView, w: LedView)
    ensures StatusOf(ApplyAll(LiteralLed, w, CommandOps(EchoOf(StatusOf(v))))) == StatusOf(v)
  {
    EchoCommandOps(StatusOf(v));
    if v.on {
      var ops := [On, SetColor(v.color)];
      var w1 := w.(on := true);
      assert ops[1..] == [SetColor(v.color)];
      assert ApplyAll(LiteralLed, w1, ops[1..]) == LedView(true, v.color) by {
        assert ApplyAll(LiteralLed, w1, ops[1..]) == ApplyAll(LiteralLed, LedView(true, v.color), []);
      }
    } else {
      assert ApplyAll(LiteralLed, w, [Off]) == w.(on := false);
    }
  }

  /** The decimal form of a two-digit number: its tens digit, then its units digit. */
  lemma DecimalTwoDigits(n: nat)
    requires 10 <= n < 100
    ensures Decimal(n) == ['0' + (n / 10) as char, '0' + (n % 10) as char]
  {
    assert Decimal(n / 10) == ['0' + (n / 10) as char];
  }

  /** The wire form of a status payload, for one concrete colour. */
  lemma StatusJsonExample()
    ensures StatusJson(StatusOn(Rgb(10, 20, 30))) == "{\"state\":\"ON\",\"color\":{\"r\":10,\"g\":20,\"b\":30}}"
  {
    DecimalTwoDigits(10);
    DecimalTwoDigits(20);
    DecimalTwoDigits(30);
  }
}
