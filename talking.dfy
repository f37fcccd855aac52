/**
 * The robot avatar of the two Bedrock Nova bots: the sprite sequence built
 * when the bot module loads (25 frames, then the same frames reversed) and
 * the `TalkingAnimation` processor, which shows the animation when the bot
 * starts speaking and the still frame when it stops, forwarding every frame
 * it receives.
 */
module Talking {
  import Text

  /** A loaded picture, named by the asset file it was read from. */
  datatype Image = Image(path: string)

  datatype Direction = Downstream | Upstream

  /** The frame kinds the processor tells apart; any other frame is `Other`. */
  datatype Frame =
    | BotStartedSpeaking
    | BotStoppedSpeaking
    | ImageFrame(image: Image)
    | SpriteFrame(images: seq<Image>)
    | Other(tag: nat)

  const FrameCount: nat := 25

  /** `f"assets/robot0{i}.png"`. */
  function AssetPath(i: nat): string {
    "assets/robot0" + Text.IntToString(i) + ".png"
  }

  /** `s[::-1]`. */
  function Reverse<T>(s: seq<T>): (r: seq<T>)
    ensures |r| == |s|
    ensures forall i :: 0 <= i < |s| ==> r[i] == s[|s| - 1 - i]
  {
    seq(|s|, i requires 0 <= i < |s| => s[|s| - 1 - i])
  }

  predicate Palindrome<T(==)>(s: seq<T>) {
    forall i :: 0 <= i < |s| ==> s[i] == s[|s| - 1 - i]
  }

  /** A list followed by its reverse reads the same backwards. */
  lemma MirrorIsPalindrome<T>(s: seq<T>)
    ensures Palindrome(s + Reverse(s))
  {
    var m := s + Reverse(s);
    forall i | 0 <= i < |m| ensures m[i] == m[|m| - 1 - i] {
      if i < |s| {
        assert m[|m| - 1 - i] == Reverse(s)[|s| - 1 - i];
      } else {
        assert m[i] == Reverse(s)[i - |s|];
      }
    }
  }

  /**
   * The module-level construction: load frames 1 to 25 in order, append
   * their reverse, take the first as the still frame and the whole list as
   * the animation.
   */
  method BuildSprites() returns (sprites: seq<Image>, quiet: Frame, talking: Frame)
    ensures |sprites| == 2 * FrameCount && Palindrome(sprites)
    ensures forall i :: 0 <= i < FrameCount ==> sprites[i] == Image(AssetPath(i + 1))
    ensures sprites[FrameCount..] == Reverse(sprites[..FrameCount])
    ensures quiet == ImageFrame(Image(AssetPath(1))) && quiet == ImageFrame(sprites[0])
    ensures talking == SpriteFrame(sprites)
  {
    sprites := [];
    for i := 1 to FrameCount + 1
      invariant |sprites| == i - 1
      invariant forall k :: 0 <= k < i - 1 ==> sprites[k] == Image(AssetPath(k + 1))
    {
      sprites := sprites + [Image(AssetPath(i))];
    }
    var loaded := sprites;
    var flipped := Reverse(sprites);
    sprites := sprites + flipped;
    MirrorIsPalindrome(loaded);
    assert sprites[..FrameCount] == loaded;
    quiet := ImageFrame(sprites[0]);
    talking := SpriteFrame(sprites);
  }

  /** What one frame makes the processor push, given whether it was talking. */
  function Reaction(talking: bool, frame: Frame, dir: Direction, talkingFrame: Frame, quietFrame: Frame): seq<(Frame, Direction)> {
    match frame
    case BotStartedSpeaking =>
      (if talking then [] else [(talkingFrame, Downstream)]) + [(frame, dir)]
    case BotStoppedSpeaking => [(quietFrame, Downstream), (frame, dir)]
    case _ => [(frame, dir)]
  }

  /** Whether it is talking after one frame. */
  function NextTalking(talking: bool, frame: Frame): bool {
    match frame
    case BotStartedSpeaking => true
    case BotStoppedSpeaking => false
    case _ => talking
  }

  /**
   * The rules for one frame: starting to speak pushes the animation only
   * when not already talking; stopping always pushes the still frame; every
   * frame is forwarded last, in its own direction; other frames change
   * nothing.
   */
  lemma ReactionRules(talking: bool, frame: Frame, dir: Direction, talkingFrame: Frame, quietFrame: Frame)
    ensures var r := Reaction(talking, frame, dir, talkingFrame, quietFrame);
      && r != [] && r[|r| - 1] == (frame, dir)
      && (frame.BotStartedSpeaking? && !talking ==> r == [(talkingFrame, Downstream), (frame, dir)])
      && (frame.BotStartedSpeaking? && talking ==> r == [(frame, dir)])
      && (frame.BotStoppedSpeaking? ==> r == [(quietFrame, Downstream), (frame, dir)])
      && (!frame.BotStartedSpeaking? && !frame.BotStoppedSpeaking? ==> r == [(frame, dir)] && NextTalking(talking, frame) == talking)
  {
  }

  /** How many times the animation is pushed over a run of frames. */
  function Animations(talking: bool, frames: seq<Frame>): nat
    decreases |frames|
  {
    if frames == [] then 0
    else (if frames[0].BotStartedSpeaking? && !talking then 1 else 0) + Animations(NextTalking(talking, frames[0]), frames[1..])
  }

  /** Without a stop in between, the animation is pushed at most once, and not at all when already talking. */
  lemma {:induction false} AnimationOncePerTurn(talking: bool, frames: seq<Frame>)
    requires forall i :: 0 <= i < |frames| ==> !frames[i].BotStoppedSpeaking?
    ensures Animations(talking, frames) <= if talking then 0 else 1
    decreases |frames|
  {
    if frames != [] {
      var next := NextTalking(talking, frames[0]);
      AnimationOncePerTurn(next, frames[1..]);
      assert talking ==> next;
    }
  }

  class TalkingAnimation {
    var isTalking: bool
    /** Every frame pushed, in order, with its direction. */
    var pushed: seq<(Frame, Direction)>
    const talkingFrame: Frame
    const quietFrame: Frame

    constructor(talkingFrame: Frame, quietFrame: Frame)
      ensures !isTalking && pushed == []
      ensures this.talkingFrame == talkingFrame && this.quietFrame == quietFrame
    {
      isTalking := false;
      pushed := [];
      this.talkingFrame := talkingFrame;
      this.quietFrame := quietFrame;
    }

    /** `process_frame`: push the animation change the frame calls for, then the frame itself. */
    method ProcessFrame(frame: Frame, dir: Direction)
      modifies this
      ensures pushed == old(pushed) + Reaction(old(isTalking), frame, dir, talkingFrame, quietFrame)
      ensures isTalking == NextTalking(old(isTalking), frame)
    {
      if frame.BotStartedSpeaking? {
        if !isTalking {
          pushed := pushed + [(talkingFrame, Downstream)];
          isTalking := true;
        }
      } else if frame.BotStoppedSpeaking? {
        pushed := pushed + [(quietFrame, Downstream)];
        isTalking := false;
      }
      pushed := pushed + [(frame, dir)];
    }
  }
}
