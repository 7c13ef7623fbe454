/** The seek loop over one audio window (rkwhisper/src/whisper.rs). */
module Seek {
  import opened Wrappers

  type Token = nat

  const MAX_PASSES: nat := 16

  /** `base` is the control prompt, `cache` the decoder's cache length; tokens from `firstTimestamp` on are timestamps. */
  datatype Window = Window(base: seq<Token>, cache: nat, firstTimestamp: Token, endToken: Token)

  function LastTimestamp(w: Window, tokens: seq<Token>): Option<Token> {
    var n := |tokens| - 1;
    if n < 0 then None
    else if tokens[n] >= w.firstTimestamp then Some(tokens[n])
    else LastTimestamp(w, tokens[..n])
  }

  /** The control prompt and as much of the end of the output so far as leaves room for 64 tokens. */
  function PromptFor(w: Window, accumulated: seq<Token>): seq<Token> {
    var budget := SatSub(w.cache, |w.base| + 64);
    w.base + accumulated[SatSub(|accumulated|, budget)..]
  }

  predicate NoRoom(w: Window, prompt: seq<Token>) { |prompt| + 16 >= w.cache }

  /**
   What the decoder is to be primed with: the control prompt and the end of the
   output so far, the longest that leaves room for 64 tokens.
   */
  ghost predicate IsPrompt(w: Window, accumulated: seq<Token>, prompt: seq<Token>) {
    var kept := |prompt| - |w.base|;
    && 0 <= kept <= |accumulated|
    && prompt == w.base + accumulated[|accumulated| - kept..]
    && (kept > 0 ==> |prompt| + 64 <= w.cache)
    && (kept < |accumulated| ==> |prompt| + 1 + 64 > w.cache)
  }

  /** The program's prompt is that one. */
  lemma PromptIsLongest(w: Window, accumulated: seq<Token>, prompt: seq<Token>)
    ensures IsPrompt(w, accumulated, prompt) <==> prompt == PromptFor(w, accumulated)
    ensures |PromptFor(w, accumulated)| == |w.base| + Min(|accumulated|, SatSub(w.cache, |w.base| + 64))
    ensures |w.base + accumulated| + 64 <= w.cache ==> PromptFor(w, accumulated) == w.base + accumulated
  {
    assert accumulated[0..] == accumulated;
  }

  /** The last timestamp among the tokens is the last one that is a timestamp. */
  ghost predicate IsLastTimestamp(w: Window, tokens: seq<Token>, k: int) {
    && 0 <= k < |tokens| && tokens[k] >= w.firstTimestamp
    && forall m :: k < m < |tokens| ==> tokens[m] < w.firstTimestamp
  }

  lemma {:induction false} LastTimestampMeans(w: Window, tokens: seq<Token>)
    ensures match LastTimestamp(w, tokens)
            case Some(t) => exists k :: IsLastTimestamp(w, tokens, k) && tokens[k] == t
            case None => forall k :: 0 <= k < |tokens| ==> tokens[k] < w.firstTimestamp
  {
    var n := |tokens| - 1;
    if 0 <= n {
      LastTimestampMeans(w, tokens[..n]);
      if tokens[n] >= w.firstTimestamp {
        assert IsLastTimestamp(w, tokens, n);
      } else if LastTimestamp(w, tokens[..n]).Some? {
        var k :| IsLastTimestamp(w, tokens[..n], k) && tokens[..n][k] == LastTimestamp(w, tokens[..n]).value;
        assert IsLastTimestamp(w, tokens, k);
      }
    }
  }

  function Joined(passes: seq<seq<Token>>): seq<Token> {
    var n := |passes| - 1;
    if n < 0 then [] else Joined(passes[..n]) + passes[n]
  }

  /** Every pass decodes a prompt that fits, and adds something. */
  ghost predicate Decoded(w: Window, decode: seq<Token> -> seq<Token>, passes: seq<seq<Token>>) {
    forall k :: 0 <= k < |passes| ==>
      var prompt := PromptFor(w, Joined(passes[..k]));
      !NoRoom(w, prompt) && passes[k] == decode(prompt) && passes[k] != []
  }

  /** Pass k left the end of the window ahead and went beyond where the pass before it had come. */
  ghost predicate Advanced(w: Window, passes: seq<seq<Token>>, k: nat)
    requires k < |passes|
  {
    var at := LastTimestamp(w, passes[k]);
    && at.Some? && at.value < w.endToken
    && (0 < k ==> LastTimestamp(w, passes[k - 1]).Some? && LastTimestamp(w, passes[k - 1]).value < at.value)
  }

  /** Why the loop may stop: nothing more to do, or nothing more it can do. */
  ghost predicate Finished(w: Window, decode: seq<Token> -> seq<Token>, passes: seq<seq<Token>>) {
    var prompt := PromptFor(w, Joined(passes));
    || |passes| == MAX_PASSES
    || NoRoom(w, prompt)
    || decode(prompt) == []
    || (passes != [] && !Advanced(w, passes, |passes| - 1))
  }

  /** Output that ends in a pass with a timestamp has that pass's last timestamp. */
  lemma {:induction false} LastOfAppend(w: Window, a: seq<Token>, b: seq<Token>)
    ensures LastTimestamp(w, a + b) == if LastTimestamp(w, b).Some? then LastTimestamp(w, b) else LastTimestamp(w, a)
    decreases |b|
  {
    if b == [] {
      assert a + b == a;
    } else {
      var n := |b| - 1;
      assert (a + b)[..|a| + n] == a + b[..n];
      LastOfAppend(w, a, b[..n]);
    }
  }

  lemma AddPass(w: Window, decode: seq<Token> -> seq<Token>, passes: seq<seq<Token>>, more: seq<Token>)
    requires Decoded(w, decode, passes) && more != []
    requires var prompt := PromptFor(w, Joined(passes)); !NoRoom(w, prompt) && more == decode(prompt)
    ensures var all := passes + [more];
            && Decoded(w, decode, all) && Joined(all) == Joined(passes) + more
            && (forall k :: 0 <= k < |passes| ==> (Advanced(w, all, k) <==> Advanced(w, passes, k)))
            && var at := LastTimestamp(w, more);
               Advanced(w, all, |passes|) <==>
                 && at.Some? && at.value < w.endToken
                 && (passes != [] ==>
                       var last := LastTimestamp(w, passes[|passes| - 1]);
                       last.Some? && last.value < at.value)
  {
    hide PromptFor, NoRoom, LastTimestamp;
    var all := passes + [more];
    assert all[..|passes|] == passes;
    forall k | 0 <= k < |all|
      ensures var prompt := PromptFor(w, Joined(all[..k])); !NoRoom(w, prompt) && all[k] == decode(prompt) && all[k] != []
    {
      if k < |passes| {
        assert all[..k] == passes[..k];
      }
    }
  }

  lemma EmptyStart(w: Window, decode: seq<Token> -> seq<Token>)
    ensures Decoded(w, decode, []) && Joined([]) == [] && LastTimestamp(w, []) == None
  {
  }

  lemma AdvancedHasTimestamp(w: Window, passes: seq<seq<Token>>, k: nat)
    requires k < |passes| && Advanced(w, passes, k)
    ensures LastTimestamp(w, passes[k]).Some?
  {
  }

  /** The pass decodes what it is to be primed with while 16 tokens of room remain, and adds something. */
  ghost predicate IsPass(w: Window, decode: seq<Token> -> seq<Token>, accumulated: seq<Token>, pass: seq<Token>) {
    forall prompt :: IsPrompt(w, accumulated, prompt) ==>
      |prompt| + 16 < w.cache && pass == decode(prompt) && pass != []
  }

  /** Another pass would find no room or add nothing. */
  ghost predicate IsStuck(w: Window, decode: seq<Token> -> seq<Token>, accumulated: seq<Token>) {
    forall prompt :: IsPrompt(w, accumulated, prompt) ==> |prompt| + 16 >= w.cache || decode(prompt) == []
  }

  /** A whole seek: at most sixteen passes, all but the last of which advanced, and a reason to stop. */
  ghost predicate IsSeek(w: Window, decode: seq<Token> -> seq<Token>, passes: seq<seq<Token>>) {
    && |passes| <= 16
    && (forall k :: 0 <= k < |passes| ==> IsPass(w, decode, Joined(passes[..k]), passes[k]))
    && (forall k :: 0 <= k < |passes| - 1 ==> Advanced(w, passes, k))
    && (|passes| == 16 || IsStuck(w, decode, Joined(passes)) || (passes != [] && !Advanced(w, passes, |passes| - 1)))
  }

  lemma PassIsPass(w: Window, decode: seq<Token> -> seq<Token>, accumulated: seq<Token>, pass: seq<Token>)
    ensures IsPass(w, decode, accumulated, pass) <==>
              var prompt := PromptFor(w, accumulated); !NoRoom(w, prompt) && pass == decode(prompt) && pass != []
    ensures IsStuck(w, decode, accumulated) <==>
              var prompt := PromptFor(w, accumulated); NoRoom(w, prompt) || decode(prompt) == []
  {
    hide PromptFor, IsPrompt;
    PromptIsLongest(w, accumulated, PromptFor(w, accumulated));
    forall prompt | IsPrompt(w, accumulated, prompt) ensures prompt == PromptFor(w, accumulated) {
      PromptIsLongest(w, accumulated, prompt);
    }
  }

  lemma SeekIsDone(w: Window, decode: seq<Token> -> seq<Token>, passes: seq<seq<Token>>)
    requires |passes| <= MAX_PASSES && Decoded(w, decode, passes) && Finished(w, decode, passes)
    requires forall k :: 0 <= k < |passes| - 1 ==> Advanced(w, passes, k)
    ensures IsSeek(w, decode, passes)
  {
    hide Advanced, PromptFor, NoRoom, IsPass, IsStuck, Joined;
    forall k | 0 <= k < |passes| ensures IsPass(w, decode, Joined(passes[..k]), passes[k]) {
      PassIsPass(w, decode, Joined(passes[..k]), passes[k]);
    }
    PassIsPass(w, decode, Joined(passes), []);
  }

  method SeekLoop(w: Window, decode: seq<Token> -> seq<Token>) returns (accumulated: seq<Token>)
    ensures exists passes :: IsSeek(w, decode, passes) && accumulated == Joined(passes)
  {
    accumulated := [];
    ghost var passes: seq<seq<Token>> := [];
    hide Decoded, Joined, Advanced, LastTimestamp;
    EmptyStart(w, decode);
    for pass := 0 to MAX_PASSES
      invariant |passes| == pass && accumulated == Joined(passes) && Decoded(w, decode, passes)
      invariant forall k :: 0 <= k < pass ==> Advanced(w, passes, k)
      invariant LastTimestamp(w, accumulated) == if pass == 0 then None else LastTimestamp(w, passes[pass - 1])
    {
      var budget := SatSub(w.cache, |w.base| + 64);
      var start := SatSub(|accumulated|, budget);
      var prompt := w.base + accumulated[start..];
      if |prompt| + 16 >= w.cache {
        SeekIsDone(w, decode, passes);
        return;
      }
      var newTokens := decode(prompt);
      if newTokens == [] {
        SeekIsDone(w, decode, passes);
        return;
      }
      if 0 < pass {
        AdvancedHasTimestamp(w, passes, pass - 1);
      }
      var previous := LastTimestamp(w, accumulated);
      var latest := LastTimestamp(w, newTokens);
      LastOfAppend(w, accumulated, newTokens);
      AddPass(w, decode, passes, newTokens);
      passes := passes + [newTokens];
      accumulated := accumulated + newTokens;
      if latest.None? {
        SeekIsDone(w, decode, passes);
        return;
      }
      if previous.Some? && latest.value <= previous.value {
        SeekIsDone(w, decode, passes);
        return;
      }
      if latest.value >= w.endToken {
        SeekIsDone(w, decode, passes);
        return;
      }
    }
    SeekIsDone(w, decode, passes);
  }

  /** Every prompt begins with the control prompt and goes on with the end of the output so far. */
  lemma PromptShape(w: Window, accumulated: seq<Token>)
    ensures w.base <= PromptFor(w, accumulated)
    ensures exists k :: 0 <= k <= |accumulated| && PromptFor(w, accumulated) == w.base + accumulated[k..]
  {
    var k := SatSub(|accumulated|, SatSub(w.cache, |w.base| + 64));
    assert PromptFor(w, accumulated) == w.base + accumulated[k..];
  }

  /** Output never crowds out generation: there is no room exactly when the control prompt alone leaves none. */
  lemma RoomDependsOnBaseOnly(w: Window, accumulated: seq<Token>)
    ensures NoRoom(w, PromptFor(w, accumulated)) <==> |w.base| + 16 >= w.cache
    ensures |w.base| + 64 <= w.cache ==> |PromptFor(w, accumulated)| + 64 <= w.cache
  {
  }

  /** Positions only move forward: the last timestamps of all passes but the last strictly increase. */
  lemma {:induction false} SeekMovesForward(w: Window, passes: seq<seq<Token>>, j: nat, k: nat)
    requires forall i :: 0 <= i < |passes| - 1 ==> Advanced(w, passes, i)
    requires j < k < |passes| - 1
    ensures LastTimestamp(w, passes[j]).Some? && LastTimestamp(w, passes[k]).Some?
    ensures LastTimestamp(w, passes[j]).value < LastTimestamp(w, passes[k]).value < w.endToken
    decreases k
  {
    assert Advanced(w, passes, k);
    if j < k - 1 {
      SeekMovesForward(w, passes, j, k - 1);
    } else {
      assert Advanced(w, passes, j);
    }
  }
}
