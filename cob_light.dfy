/** The light controller node of the Care-O-bot LED driver: a colour command
    handler, a three-mode request handler (static, breathing, flashing) and
    the breathing tick, all updating one `LightControl` object and writing
    ASCII lines to the LED microcontroller's serial port. The serial port is
    modelled by the log `written` of every line sent; the ROS timer by the
    flag `timerActive`. */
module CobLight {
  import opened Wire

  /** A ColorRGBA message. `a` is carried along but never sent to hardware. */
  datatype Color = Color(r: real, g: real, b: real, a: real)

  /** The LedMode enumeration. */
  datatype LedMode = Static | Breath | Flash

  function ModeCode(m: LedMode): int {
    match m
    case Static => 0
    case Breath => 1
    case Flash => 2
  }

  /** The mode an integer request field names, if any. */
  function ModeOf(code: int): (m: Option<LedMode>)
    ensures m.Some? <==> 0 <= code <= 2
    ensures m.Some? ==> ModeCode(m.value) == code
  {
    if code == 0 then Some(Static)
    else if code == 1 then Some(Breath)
    else if code == 2 then Some(Flash)
    else None
  }

  /** Every LedMode value survives its integer encoding. */
  lemma ModeCodeRoundTrip(m: LedMode)
    ensures ModeOf(ModeCode(m)) == Some(m)
  {
  }

  /** The LightMode service request and response. */
  datatype LightModeRequest = LightModeRequest(color: Color, mode: int)
  datatype LightModeResponse = LightModeResponse(errorType: int, errorMsg: string)

  /** A freshly constructed response: error_type 0, empty error_msg. */
  const DefaultResponse := LightModeResponse(0, "")
  const UnsupportedModeMessage: string := "Unsupported Led Mode requested"

  /** The range check of setRGB: an upper bound on r, g and b only. */
  predicate InRange(c: Color) {
    c.r <= 1.0 && c.g <= 1.0 && c.b <= 1.0
  }

  /** `int((1 - c) * 999.0)`: the inverted hardware scale of one channel. */
  function Level(c: real): (n: int)
    ensures c <= 1.0 ==> n >= 0
    ensures 0.0 <= c <= 1.0 ==> n <= 999
    ensures c < 0.0 ==> n >= 999
    ensures c == 1.0 ==> n == 0
    ensures c == 0.0 ==> n == 999
  {
    Truncate((1.0 - c) * 999.0)
  }

  /** A brighter channel never gets a larger hardware value. */
  lemma LevelAntitone(c1: real, c2: real)
    requires c1 <= c2 <= 1.0
    ensures Level(c2) <= Level(c1)
  {
  }

  function ColorLevels(c: Color): Levels {
    Levels(Level(c.r), Level(c.g), Level(c.b))
  }

  /** The lines setRGB sends for colour `c`: one line when the colour passes
      the range check, none otherwise. */
  function SetRGBOutput(c: Color): (out: seq<string>)
    ensures |out| <= 1
    ensures out != [] <==> InRange(c)
    ensures out != [] ==> ParseLine(out[0]) == Some(ColorLevels(c))
    ensures out != [] ==> Level(c.r) >= 0 && Level(c.g) >= 0 && Level(c.b) >= 0
  {
    if InRange(c) then LineRoundTrip(ColorLevels(c)); [Line(ColorLevels(c))] else []
  }

  /** Pure red in full: the red channel driven to 0, the others off at 999. */
  lemma PureRedLine()
    ensures SetRGBOutput(Color(1.0, 0.0, 0.0, 1.0)) == ["0 999 999\n\r"]
  {
    var l := ColorLevels(Color(1.0, 0.0, 0.0, 1.0));
    assert l == Levels(0, 999, 999);
    assert NatDigits(99) == "99";
    assert Decimal(999) == "999";
    assert Decimal(0) == "0";
    assert Line(l) == "0" + " " + "999" + " " + "999" + Terminator;
    assert Line(l) == "0 999 999\n\r";
  }

  /** One breathing channel, `999.0 - fabs(c * fV)`. */
  function BreathChannel(c: real, fV: real): (out: real)
    ensures out <= 999.0
  {
    var p := c * fV;
    if p >= 0.0 then 999.0 - p else 999.0 + p
  }

  /** The integers one breathing tick sends. */
  function BreathLevels(c: Color, fV: real): Levels {
    Levels(Truncate(BreathChannel(c.r, fV)), Truncate(BreathChannel(c.g, fV)),
           Truncate(BreathChannel(c.b, fV)))
  }

  /** For a colour in [0, 1] and an amplitude below 1000, every breathing
      value sent lies in [0, 999]. The amplitude the node computes peaks
      slightly above 999, so the `- 1` slack that truncation toward zero
      gives is what keeps the lower bound. */
  lemma BreathLevelsInRange(c: Color, fV: real)
    requires 0.0 <= c.r <= 1.0 && 0.0 <= c.g <= 1.0 && 0.0 <= c.b <= 1.0
    requires 0.0 <= fV < 1000.0
    ensures var l := BreathLevels(c, fV);
      0 <= l.red <= 999 && 0 <= l.green <= 999 && 0 <= l.blue <= 999
  {
    BreathChannelAbove(c.r, fV);
    BreathChannelAbove(c.g, fV);
    BreathChannelAbove(c.b, fV);
  }

  lemma BreathChannelAbove(c: real, fV: real)
    requires 0.0 <= c <= 1.0 && 0.0 <= fV < 1000.0
    ensures -1.0 < BreathChannel(c, fV) <= 999.0
    ensures 0 <= Truncate(BreathChannel(c, fV)) <= 999
  {
    assert c * fV <= fV by {
      assert (1.0 - c) * fV >= 0.0;
    }
  }

  /** The phase advance of a breathing tick: +0.01, back to 0.0 on reaching 2.0. */
  function AdvancePhase(p: real): (q: real)
    ensures 0.0 <= p < 2.0 ==> 0.0 <= q < 2.0
    ensures q == 0.0 || q == p + 0.01
    ensures q == 0.0 <==> p + 0.01 >= 2.0 || p == -0.01
  {
    if p + 0.01 >= 2.0 then 0.0 else p + 0.01
  }

  /** The response the mode handler evidently intends for a mode code. */
  function ModeResponse(mode: int): (res: LightModeResponse)
    ensures res == DefaultResponse <==> ModeOf(mode).Some?
    ensures ModeOf(mode).None? ==> res.errorType == -1 && res.errorMsg == UnsupportedModeMessage
  {
    match ModeOf(mode)
    case Some(_) => DefaultResponse
    case None => LightModeResponse(-1, UnsupportedModeMessage)
  }

  /** What the mode service hands back, as the handler is written: an
      unsupported mode reaches a log call naming the undefined variable
      `mode`, which raises NameError before the error response is built. */
  datatype ServiceReply = Reply(response: LightModeResponse) | NameErrorRaised

  function ModeReplyAsWritten(mode: int): (reply: ServiceReply)
    ensures reply == NameErrorRaised <==> !(0 <= mode <= 2)
    ensures reply.Reply? ==> reply.response == DefaultResponse
  {
    match ModeOf(mode)
    case Some(_) => Reply(DefaultResponse)
    case None => NameErrorRaised
  }

  /** On the three supported modes the handler as written answers as intended. */
  lemma ModeReplyAsWrittenOnSupported(mode: int)
    requires 0 <= mode <= 2
    ensures ModeReplyAsWritten(mode) == Reply(ModeResponse(mode))
  {
  }

  /** Mode 5: as written the caller gets an exception, not the error response. */
  lemma UnsupportedModeRaises()
    ensures ModeReplyAsWritten(5) == NameErrorRaised
    ensures ModeResponse(5) == LightModeResponse(-1, UnsupportedModeMessage)
  {
  }

  /** The default colour: green, full opacity. */
  const DefaultColor := Color(0.0, 1.0, 0.0, 1.0)

  class LightControl {
    var color: Color
    var simMode: bool
    /** `ser is not None`. */
    var serOpen: bool
    /** `handle_timer is not None`. */
    var timerActive: bool
    /** `inc_timer`, the breathing phase. */
    var phase: real
    /** Every line written to the serial port, oldest first. */
    ghost var written: seq<string>

    /** The port is open exactly when the node is not simulating, and the
        breathing phase stays in [0, 2.0). */
    ghost predicate Valid()
      reads this
    {
      serOpen == !simMode && 0.0 <= phase < 2.0
    }

    /** `serialOpened` is the outcome of opening the port at start-up; a
        SerialException there means simulated mode. (A missing device
        parameter does not reach this point: the lookup that follows the
        failed check raises KeyError and the node never starts.) */
    constructor (serialOpened: bool)
      ensures Valid()
      ensures color == DefaultColor && simMode == !serialOpened && serOpen == serialOpened
      ensures !timerActive && phase == 0.0 && written == []
    {
      color := DefaultColor;
      simMode := !serialOpened;
      serOpen := serialOpened;
      timerActive := false;
      phase := 0.0;
      written := [];
    }

    /** setRGB: cancels any timer, then sends the colour if it passes the
        range check. The write needs an open port: on an accepted colour in
        simulated mode the source calls `write` on None. */
    method SetRGB(c: Color)
      requires serOpen || !InRange(c)
      modifies this`timerActive, this`written
      ensures !timerActive
      ensures written == old(written) + SetRGBOutput(c)
    {
      if timerActive {
        timerActive := false;
      }
      if InRange(c) {
        written := written + [Line(ColorLevels(c))];
      }
    }

    /** ModeCallback: stores and sends the request's colour whatever the
        mode, then starts the breathing timer at phase 0.0 for BREATH; for
        STATIC and FLASH the timer stays cancelled by setRGB. */
    method ModeCallback(req: LightModeRequest) returns (res: LightModeResponse)
      requires Valid()
      requires serOpen || !InRange(req.color)
      modifies this`color, this`timerActive, this`phase, this`written
      ensures Valid()
      ensures color == req.color
      ensures written == old(written) + SetRGBOutput(req.color)
      ensures timerActive <==> req.mode == ModeCode(Breath)
      ensures phase == if req.mode == ModeCode(Breath) then 0.0 else old(phase)
      ensures res == ModeResponse(req.mode)
    {
      res := DefaultResponse;
      color := req.color;
      SetRGB(color);
      match ModeOf(req.mode)
      case Some(Breath) =>
        phase := 0.0;
        timerActive := true;
        res := LightModeResponse(0, "");
      case Some(Static) =>
      case Some(Flash) =>
      case None =>
        // The source's warning here formats an undefined name and raises
        // NameError; this is the response it evidently means to return
        // (ModeReplyAsWritten models the code as written).
        res := LightModeResponse(-1, UnsupportedModeMessage);
    }

    /** BreathTimerEvent with the amplitude `fV` of the current phase given:
        advances the phase, then sends `999 - |c * fV|` per channel when the
        port is open (in simulated mode the values are only logged). */
    method BreathTimerEvent(fV: real)
      requires Valid()
      modifies this`phase, this`written
      ensures Valid()
      ensures phase == AdvancePhase(old(phase))
      ensures written == old(written) + (if serOpen then [Line(BreathLevels(color, fV))] else [])
    {
      phase := phase + 0.01;
      if phase >= 2.0 {
        phase := 0.0;
      }
      var red := BreathChannel(color.r, fV);
      var green := BreathChannel(color.g, fV);
      var blue := BreathChannel(color.b, fV);
      if serOpen {
        written := written + [Line(Levels(Truncate(red), Truncate(green), Truncate(blue)))];
      }
    }

    /** LightCallback: stores the colour; outside simulated mode also runs
        setRGB on it, which cancels the timer and sends the colour. */
    method LightCallback(c: Color)
      requires Valid()
      modifies this`color, this`timerActive, this`written
      ensures Valid()
      ensures color == c
      ensures simMode ==> timerActive == old(timerActive) && written == old(written)
      ensures !simMode ==> !timerActive && written == old(written) + SetRGBOutput(c)
    {
      color := c;
      if !simMode {
        SetRGB(c);
      }
    }
  }
}
