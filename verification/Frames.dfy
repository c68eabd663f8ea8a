/** viz::FrameTokenGenerator: a 32-bit counter that skips zero, and the palette the frames are coloured with. */
module FrameTokens {

  const LAST_TOKEN := 0xFFFF_FFFF

  function Next(token: nat): nat { if token >= LAST_TOKEN then 1 else token + 1 }

  /** The token after `n` increments. */
  function After(n: nat): nat { if n == 0 then 0 else (n - 1) % LAST_TOKEN + 1 }

  lemma NextAfter(n: nat)
    ensures Next(After(n)) == After(n + 1)
  {
  }

  datatype Color = Red | Green | Yellow

  const PALETTE := [Red, Green, Yellow]

  function Paint(i: nat): Color { PALETTE[i % |PALETTE|] }
}

/** What a frame sink client answers to a begin-frame: a frame, or that it has none. */
module Replies {

  datatype Message<F> = Submit(args: nat, frame: F) | DidNotProduce(args: nat)

  /** The frames among the replies, in order. */
  function Frames<F>(sent: seq<Message<F>>): seq<F> {
    if sent == [] then []
    else
      var m := sent[|sent| - 1];
      Frames(sent[..|sent| - 1]) + if m.Submit? then [m.frame] else []
  }

  lemma FramesStep<F>(sent: seq<Message<F>>, m: Message<F>)
    ensures Frames(sent + [m]) == Frames(sent) + if m.Submit? then [m.frame] else []
  {
    assert (sent + [m])[..|sent|] == sent;
  }
}
