/**
 * The remote-control input node (src/node/rc_input.py): arrow-key escape
 * bytes become a direction, and each publishing tick turns the pending
 * direction into at most one drive command and clears it.
 */
module RcInput {
  import opened Wrappers
  import opened Messages

  /** The escape character that starts an arrow-key sequence. */
  const ESC: char := '\U{1B}'

  /** The four arrow keys; `Letter` gives the one-letter name the node stores. */
  datatype Direction = Left | Right | Forward | Backward

  function Letter(d: Direction): char {
    match d
    case Left => 'L'
    case Right => 'R'
    case Forward => 'F'
    case Backward => 'B'
  }

  /** The two bytes that follow ESC for each arrow key. */
  function ArrowKeyBytes(d: Direction): string {
    match d
    case Left => "[D"
    case Right => "[C"
    case Forward => "[A"
    case Backward => "[B"
  }

  /** `_extract_direction`: the direction of an arrow key, or `None` for any other bytes. */
  function ExtractDirection(arrowKeyBytes: string): (r: Option<Direction>)
    ensures r.Some? ==> ArrowKeyBytes(r.value) == arrowKeyBytes
    ensures r.None? ==> forall d :: ArrowKeyBytes(d) != arrowKeyBytes
  {
    if arrowKeyBytes == "[D" then Some(Left)
    else if arrowKeyBytes == "[C" then Some(Right)
    else if arrowKeyBytes == "[A" then Some(Forward)
    else if arrowKeyBytes == "[B" then Some(Backward)
    else None
  }

  /** Every arrow key is recognised as its own direction. */
  lemma ExtractArrowKey(d: Direction)
    ensures ExtractDirection(ArrowKeyBytes(d)) == Some(d)
  {
  }

  /** The command a direction produces, as in the branches of `_viz_pub_loop`. */
  function Command(d: Direction): (msg: JoystickDeflection)
    ensures msg.joystick.IsTrack()
    ensures msg.joystick == TRACK_LEFT <==> d == Left
    ensures msg.joystick == TRACK_RIGHT <==> d == Right
    ensures msg.joystick == TRACK_FORWARD <==> d == Forward
    ensures msg.joystick == TRACK_BACKWARD <==> d == Backward
    ensures (msg.joystick == TRACK_LEFT || msg.joystick == TRACK_RIGHT) <==> (d == Left || d == Right)
    ensures d == Left || d == Right ==> msg.deflection == 10 || msg.deflection == -10
    ensures d == Forward || d == Backward ==> msg.deflection == 5 || msg.deflection == -5
    ensures msg.deflection < 0 <==> (d == Left || d == Backward)
  {
    match d
    case Left => JoystickDeflection(TRACK_LEFT, -10)
    case Right => JoystickDeflection(TRACK_RIGHT, 10)
    case Forward => JoystickDeflection(TRACK_FORWARD, 5)
    case Backward => JoystickDeflection(TRACK_BACKWARD, -5)
  }

  /** Distinct keys give distinct commands, and every command passes field validation. */
  lemma CommandInjectiveAndValid(d: Direction, e: Direction)
    ensures Command(d) == Command(e) ==> d == e
    ensures MakeJoystickDeflection(Command(d).joystick, Command(d).deflection) == Some(Command(d))
  {
  }

  /** The label shown for the pending direction: its letter, or a space when none. */
  function Label(pending: Option<Direction>): (c: char)
    ensures c == ' ' <==> pending.None?
    ensures pending.Some? ==> c == Letter(pending.value)
  {
    match pending
    case None => ' '
    case Some(d) => Letter(d)
  }

  /** The commands one tick publishes: one for a pending direction, none otherwise. */
  function Published(pending: Option<Direction>): (msgs: seq<JoystickDeflection>)
    ensures |msgs| == if pending.Some? then 1 else 0
    ensures pending.Some? ==> msgs[0] == Command(pending.value)
  {
    match pending
    case None => []
    case Some(d) => [Command(d)]
  }

  /** The node's state: the direction read but not yet acted on. */
  class PotreroRc {
    var direction: Option<Direction>

    constructor ()
      ensures direction == None
    {
      direction := None;
    }

    /**
     * One iteration of `_read_keyboard`: after ESC the next two bytes set the
     * pending direction (an unknown sequence clears it); 'q' quits.
     */
    method ReadKey(ch: char, arrowKeyBytes: string) returns (quit: bool)
      modifies this
      ensures quit == (ch == 'q')
      ensures direction == if ch == ESC then ExtractDirection(arrowKeyBytes) else old(direction)
    {
      if ch == ESC {
        direction := ExtractDirection(arrowKeyBytes);
      }
      quit := ch == 'q';
    }

    /**
     * One iteration of `_viz_pub_loop`: the label shown, the commands
     * published, and the pending direction cleared.
     */
    method Tick() returns (shown: char, sent: seq<JoystickDeflection>)
      modifies this
      ensures shown == Label(old(direction))
      ensures sent == Published(old(direction))
      ensures direction == None
    {
      shown := if direction.None? then ' ' else Letter(direction.value);
      sent := [];
      if direction.Some? {
        var msg := Command(direction.value);
        sent := sent + [msg];
      }
      direction := None;
    }
  }

  /** One key press followed by two ticks publishes exactly one command in all. */
  method OneKeyOneCommand(rc: PotreroRc, d: Direction) returns (first: seq<JoystickDeflection>, second: seq<JoystickDeflection>)
    modifies rc
    ensures first == [Command(d)] && second == []
  {
    var quit := rc.ReadKey(ESC, ArrowKeyBytes(d));
    var shown;
    shown, first := rc.Tick();
    shown, second := rc.Tick();
  }
}
