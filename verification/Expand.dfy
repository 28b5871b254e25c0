/** src/models/qwen35.rs (`expand_vision_placeholders`) and src/joycaption.rs (`expand_image_tokens`): one placeholder
    token per visual becomes as many copies as the vision tower emits rows. */
module Expand {
  import opened Mrope
  import opened Prelude

  const IMAGE_TOKEN_ID: int := 128077
  const IMAGE_SEQ_LENGTH: nat := 729

  function Count(ids: seq<int>, token: int): nat
  {
    if ids == [] then 0 else (if ids[0] == token then 1 else 0) + Count(ids[1..], token)
  }

  function Sum(counts: seq<nat>): nat
  {
    if counts == [] then 0 else counts[0] + Sum(counts[1..])
  }

  function Copies(token: int, n: nat): (out: seq<int>)
    ensures |out| == n && forall i :: 0 <= i < n ==> out[i] == token
  {
    seq(n, _ => token)
  }

  /** The stream with the `i`-th occurrence of `token` replaced by `counts[i]` copies. */
  function Expanded(ids: seq<int>, token: int, counts: seq<nat>): seq<int>
    requires Count(ids, token) == |counts|
  {
    if ids == [] then []
    else if ids[0] == token then Copies(token, counts[0]) + Expanded(ids[1..], token, counts[1..])
    else [ids[0]] + Expanded(ids[1..], token, counts)
  }

  method ExpandVisionPlaceholders(ids: seq<int>, token: int, counts: seq<nat>) returns (r: Result<seq<int>, Error>)
    ensures r.Ok? <==> Count(ids, token) == |counts|
    ensures r.Ok? ==> r.value == Expanded(ids, token, counts)
  {
    if Count(ids, token) != |counts| {
      return Err(Msg("token expansion: placeholder and count numbers differ"));
    }
    hide Count, Expanded;
    var out: seq<int>, ci := [], 0;
    assert ids[0..] == ids && counts[0..] == counts;
    assert [] + Expanded(ids, token, counts) == Expanded(ids, token, counts);
    for i := 0 to |ids|
      invariant ci <= |counts| && Count(ids[i..], token) == |counts| - ci
      invariant Expanded(ids, token, counts) == out + Expanded(ids[i..], token, counts[ci..])
    {
      assert ids[i..] == [ids[i]] + ids[i + 1..];
      ExpandedHead(ids[i], ids[i + 1..], token, counts[ci..]);
      var piece: seq<int>;
      if ids[i] == token {
        assert counts[ci..][1..] == counts[ci + 1..];
        piece := Copies(token, counts[ci]);
        ci := ci + 1;
      } else {
        piece := [ids[i]];
      }
      Assoc(out, piece, Expanded(ids[i + 1..], token, counts[ci..]));
      out := out + piece;
    }
    NoneLeft(ids[|ids|..], token);
    r := Ok(out);
  }

  lemma NoneLeft(ids: seq<int>, token: int)
    requires ids == []
    ensures Count(ids, token) == 0 && Expanded(ids, token, []) == []
  {
  }

  method ExpandImageTokens(ids: seq<int>) returns (out: seq<int>)
    ensures out == Expanded(ids, IMAGE_TOKEN_ID, seq(Count(ids, IMAGE_TOKEN_ID), _ => IMAGE_SEQ_LENGTH))
  {
    hide Count, Expanded;
    ghost var n := Count(ids, IMAGE_TOKEN_ID);
    ghost var all := seq(n, _ => IMAGE_SEQ_LENGTH);
    ghost var ci := 0;
    out := [];
    assert ids[0..] == ids && all[0..] == all;
    assert [] + Expanded(ids, IMAGE_TOKEN_ID, all) == Expanded(ids, IMAGE_TOKEN_ID, all);
    for i := 0 to |ids|
      invariant ci <= n && Count(ids[i..], IMAGE_TOKEN_ID) == n - ci
      invariant Expanded(ids, IMAGE_TOKEN_ID, all) == out + Expanded(ids[i..], IMAGE_TOKEN_ID, all[ci..])
    {
      assert ids[i..] == [ids[i]] + ids[i + 1..];
      ExpandedHead(ids[i], ids[i + 1..], IMAGE_TOKEN_ID, all[ci..]);
      var piece: seq<int>;
      if ids[i] == IMAGE_TOKEN_ID {
        assert all[ci..][1..] == all[ci + 1..];
        piece := Copies(IMAGE_TOKEN_ID, IMAGE_SEQ_LENGTH);
        ci := ci + 1;
      } else {
        piece := [ids[i]];
      }
      Assoc(out, piece, Expanded(ids[i + 1..], IMAGE_TOKEN_ID, all[ci..]));
      out := out + piece;
    }
    NoneLeft(ids[|ids|..], IMAGE_TOKEN_ID);
  }

  // ----- conservation -----

  lemma {:induction false} CountAppend(a: seq<int>, b: seq<int>, token: int)
    ensures Count(a + b, token) == Count(a, token) + Count(b, token)
  {
    if a == [] {
      assert a + b == b;
    } else {
      assert (a + b)[1..] == a[1..] + b;
      CountAppend(a[1..], b, token);
    }
  }

  lemma {:induction false} CountCopies(copied: int, n: nat, token: int)
    ensures Count(Copies(copied, n), token) == if copied == token then n else 0
  {
    if n > 0 {
      assert Copies(copied, n)[1..] == Copies(copied, n - 1);
      CountCopies(copied, n - 1, token);
    }
  }

  /** Expansion leaves exactly the promised number of copies, and every other token's count alone. */
  lemma {:induction false} ExpandedCounts(ids: seq<int>, token: int, counts: seq<nat>, other: int)
    requires Count(ids, token) == |counts|
    ensures Count(Expanded(ids, token, counts), other) == if other == token then Sum(counts) else Count(ids, other)
    ensures |Expanded(ids, token, counts)| == |ids| - |counts| + Sum(counts)
  {
    if ids != [] {
      if ids[0] == token {
        ExpandedCounts(ids[1..], token, counts[1..], other);
        CountAppend(Copies(token, counts[0]), Expanded(ids[1..], token, counts[1..]), other);
        CountCopies(token, counts[0], other);
      } else {
        ExpandedCounts(ids[1..], token, counts, other);
        CountAppend([ids[0]], Expanded(ids[1..], token, counts), other);
      }
    }
  }

  /** The stream without one token. */
  function Without(ids: seq<int>, token: int): seq<int>
  {
    if ids == [] then [] else (if ids[0] == token then [] else [ids[0]]) + Without(ids[1..], token)
  }

  lemma {:induction false} WithoutAppend(a: seq<int>, b: seq<int>, token: int)
    ensures Without(a + b, token) == Without(a, token) + Without(b, token)
  {
    if a == [] {
      assert a + b == b;
    } else {
      assert (a + b)[1..] == a[1..] + b;
      WithoutAppend(a[1..], b, token);
    }
  }

  lemma {:induction false} WithoutCopies(token: int, n: nat)
    ensures Without(Copies(token, n), token) == []
  {
    if n > 0 {
      assert Copies(token, n)[1..] == Copies(token, n - 1);
      WithoutCopies(token, n - 1);
    }
  }

  /** All surrounding tokens stay, in order. */
  lemma {:induction false} ExpandedKeepsTheRest(ids: seq<int>, token: int, counts: seq<nat>)
    requires Count(ids, token) == |counts|
    ensures Without(Expanded(ids, token, counts), token) == Without(ids, token)
  {
    if ids != [] {
      if ids[0] == token {
        ExpandedKeepsTheRest(ids[1..], token, counts[1..]);
        WithoutAppend(Copies(token, counts[0]), Expanded(ids[1..], token, counts[1..]), token);
        WithoutCopies(token, counts[0]);
      } else {
        ExpandedKeepsTheRest(ids[1..], token, counts);
      }
    }
  }

  // ----- two tokens -----

  /** Prepending one token. */
  lemma ExpandedHead(id: int, a: seq<int>, token: int, counts: seq<nat>)
    requires Count([id] + a, token) == |counts|
    ensures Count([id] + a, token) == Count(a, token) + (if id == token then 1 else 0)
    ensures Expanded([id] + a, token, counts)
         == if id == token then Copies(token, counts[0]) + Expanded(a, token, counts[1..])
            else [id] + Expanded(a, token, counts)
  {
    assert ([id] + a)[1..] == a;
  }

  lemma {:induction false} ExpandedAppend(a: seq<int>, b: seq<int>, token: int, ca: seq<nat>, cb: seq<nat>)
    requires Count(a, token) == |ca| && Count(b, token) == |cb|
    ensures Count(a + b, token) == |ca + cb|
    ensures Expanded(a + b, token, ca + cb) == Expanded(a, token, ca) + Expanded(b, token, cb)
  {
    CountAppend(a, b, token);
    if a == [] {
      assert a + b == b && ca + cb == cb;
    } else {
      ExpandedAppend(a[1..], b, token, if a[0] == token then ca[1..] else ca, cb);
      assert [a[0]] + a[1..] == a;
      ExpandedAppendStep(a[0], a[1..], b, token, ca, cb);
    }
  }

  lemma ExpandedAppendStep(id: int, a: seq<int>, b: seq<int>, token: int, ca: seq<nat>, cb: seq<nat>)
    requires Count([id] + a, token) == |ca| == Count(a, token) + (if id == token then 1 else 0)
    requires Count(b, token) == |cb| && Count([id] + a + b, token) == |ca| + |cb|
    requires Count(a + b, token) == Count(a, token) + |cb|
    requires Expanded(a + b, token, (if id == token then ca[1..] else ca) + cb)
          == Expanded(a, token, if id == token then ca[1..] else ca) + Expanded(b, token, cb)
    ensures Expanded([id] + a + b, token, ca + cb) == Expanded([id] + a, token, ca) + Expanded(b, token, cb)
  {
    hide *;
    Assoc([id], a, b);
    ExpandedHead(id, a + b, token, ca + cb);
    ExpandedHead(id, a, token, ca);
    if id == token {
      assert (ca + cb)[1..] == ca[1..] + cb && (ca + cb)[0] == ca[0];
      Assoc(Copies(token, ca[0]), Expanded(a, token, ca[1..]), Expanded(b, token, cb));
    } else {
      Assoc([id], Expanded(a, token, ca), Expanded(b, token, cb));
    }
  }

  lemma {:induction false} ExpandedForeign(copied: int, n: nat, token: int)
    requires copied != token
    ensures Count(Copies(copied, n), token) == 0
    ensures Expanded(Copies(copied, n), token, []) == Copies(copied, n)
  {
    CountCopies(copied, n, token);
    if n > 0 {
      assert Copies(copied, n)[1..] == Copies(copied, n - 1);
      ExpandedForeign(copied, n - 1, token);
    }
  }

  /** Image and video expansion commute: each touches only its own token. */
  lemma {:induction false} ExpansionsCommute(ids: seq<int>, a: int, ca: seq<nat>, b: int, cb: seq<nat>)
    requires a != b && Count(ids, a) == |ca| && Count(ids, b) == |cb|
    ensures Count(Expanded(ids, a, ca), b) == |cb| && Count(Expanded(ids, b, cb), a) == |ca|
    ensures Expanded(Expanded(ids, a, ca), b, cb) == Expanded(Expanded(ids, b, cb), a, ca)
  {
    ExpandedCounts(ids, a, ca, b);
    ExpandedCounts(ids, b, cb, a);
    if ids != [] {
      if ids[0] == a {
        ExpandHead(ids, a, ca, b, cb);
        ExpansionsCommute(ids[1..], a, ca[1..], b, cb);
      } else if ids[0] == b {
        ExpandHead(ids, b, cb, a, ca);
        ExpansionsCommute(ids[1..], a, ca, b, cb[1..]);
      } else {
        ExpansionsCommute(ids[1..], a, ca, b, cb);
      }
    }
  }

  /** A leading `a` turns into its copies whichever expansion runs first. */
  lemma ExpandHead(ids: seq<int>, a: int, ca: seq<nat>, b: int, cb: seq<nat>)
    requires a != b && ids != [] && ids[0] == a && Count(ids, a) == |ca| && Count(ids, b) == |cb|
    ensures Count(Expanded(ids, a, ca), b) == |cb| == Count(Expanded(ids[1..], a, ca[1..]), b)
    ensures Count(Expanded(ids, b, cb), a) == |ca| == Count(Expanded(ids[1..], b, cb), a) + 1
    ensures Expanded(Expanded(ids, a, ca), b, cb)
         == Copies(a, ca[0]) + Expanded(Expanded(ids[1..], a, ca[1..]), b, cb)
    ensures Expanded(Expanded(ids, b, cb), a, ca)
         == Copies(a, ca[0]) + Expanded(Expanded(ids[1..], b, cb), a, ca[1..])
  {
    ExpandedCounts(ids[1..], a, ca[1..], b);
    ExpandedCounts(ids[1..], b, cb, a);
    ExpandedCounts(ids, a, ca, b);
    ExpandedCounts(ids, b, cb, a);
    ExpandedForeign(a, ca[0], b);
    ExpandedAppend(Copies(a, ca[0]), Expanded(ids[1..], a, ca[1..]), b, [], cb);
    assert [] + cb == cb;
    assert Expanded(ids, b, cb)[1..] == Expanded(ids[1..], b, cb);
  }

  // ----- expansion makes the streams the position rows accept -----

  /** The merged row count of a grid, and hence its placeholder count: `t·(h/m)·(w/m)`. */
  function GridCount(c: Config, g: Grid): nat
  {
    var gh, gw := TruncDiv(g.h, Merge(c)), TruncDiv(g.w, Merge(c));
    if g.t > 0 && gh > 0 && gw > 0 then Volume(g.t, gh, gw) else 0
  }

  function GridCounts(c: Config, grids: seq<Grid>): (counts: seq<nat>)
    ensures |counts| == |grids|
  {
    if grids == [] then [] else [GridCount(c, grids[0])] + GridCounts(c, grids[1..])
  }

  predicate GoodGrid(c: Config, g: Grid)
  {
    g.t > 0 && TruncDiv(g.h, Merge(c)) > 0 && TruncDiv(g.w, Merge(c)) > 0
  }

  function RunOf(c: Config, id: int, g: Grid): Block
  {
    Vision(id, g.t, TruncDiv(g.h, Merge(c)), TruncDiv(g.w, Merge(c)))
  }

  /** The blocks a prompt stands for: one grid per placeholder. */
  function PromptBlocks(c: Config, prompt: seq<int>, images: seq<Grid>, frames: seq<Grid>): seq<Block>
    requires c.imageToken != c.videoToken
    requires Count(prompt, c.imageToken) == |images| && Count(prompt, c.videoToken) == |frames|
  {
    if prompt == [] then []
    else if prompt[0] == c.imageToken then
      [RunOf(c, prompt[0], images[0])] + PromptBlocks(c, prompt[1..], images[1..], frames)
    else if prompt[0] == c.videoToken then
      [RunOf(c, prompt[0], frames[0])] + PromptBlocks(c, prompt[1..], images, frames[1..])
    else [Text(prompt[0])] + PromptBlocks(c, prompt[1..], images, frames)
  }

  /** No two equal placeholders stand next to each other. */
  predicate Separated(c: Config, prompt: seq<int>)
  {
    forall i :: 0 <= i < |prompt| - 1 ==> !(IsVision(c, prompt[i]) && prompt[i + 1] == prompt[i])
  }

  predicate GoodGrids(c: Config, grids: seq<Grid>) { forall i :: 0 <= i < |grids| ==> GoodGrid(c, grids[i]) }

  lemma {:induction false} PromptBlocksRendered(c: Config, prompt: seq<int>, images: seq<Grid>, frames: seq<Grid>)
    requires c.imageToken != c.videoToken && Separated(c, prompt) && GoodGrids(c, images) && GoodGrids(c, frames)
    requires Count(prompt, c.imageToken) == |images| && Count(prompt, c.videoToken) == |frames|
    ensures |PromptBlocks(c, prompt, images, frames)| == |prompt|
    ensures prompt != [] ==>
      var b := PromptBlocks(c, prompt, images, frames)[0];
      if IsVision(c, prompt[0]) then b.Vision? && b.token == prompt[0] else b == Text(prompt[0])
    ensures Rendered(c, PromptBlocks(c, prompt, images, frames), images, frames)
  {
    if prompt != [] {
      var rest := prompt[1..];
      forall i | 0 <= i < |rest| - 1 ensures !(IsVision(c, rest[i]) && rest[i + 1] == rest[i]) {
        assert rest[i] == prompt[i + 1] && rest[i + 1] == prompt[i + 2];
      }
      if prompt[0] == c.imageToken {
        PromptBlocksRendered(c, rest, images[1..], frames);
      } else if prompt[0] == c.videoToken {
        PromptBlocksRendered(c, rest, images, frames[1..]);
      } else {
        PromptBlocksRendered(c, rest, images, frames);
      }
      var blocks := PromptBlocks(c, prompt, images, frames);
      assert blocks[1..] == PromptBlocks(c, rest, if prompt[0] == c.imageToken then images[1..] else images,
                                         if prompt[0] == c.videoToken then frames[1..] else frames);
    }
  }

  /** Expanding both placeholders by their grids' counts spells exactly the prompt's blocks. */
  lemma {:induction false} ExpansionSpellsBlocks(c: Config, prompt: seq<int>, images: seq<Grid>, frames: seq<Grid>)
    requires c.imageToken != c.videoToken && GoodGrids(c, images) && GoodGrids(c, frames)
    requires Count(prompt, c.imageToken) == |images| && Count(prompt, c.videoToken) == |frames|
    ensures Count(Expanded(prompt, c.imageToken, GridCounts(c, images)), c.videoToken) == |frames|
    ensures ValidBlocks(PromptBlocks(c, prompt, images, frames))
    ensures Expanded(Expanded(prompt, c.imageToken, GridCounts(c, images)), c.videoToken, GridCounts(c, frames))
         == Stream(PromptBlocks(c, prompt, images, frames))
  {
    var ci, cf := GridCounts(c, images), GridCounts(c, frames);
    ExpandedCounts(prompt, c.imageToken, ci, c.videoToken);
    if prompt != [] {
      if prompt[0] == c.imageToken {
        ExpansionSpellsBlocks(c, prompt[1..], images[1..], frames);
        ExpandHead(prompt, c.imageToken, ci, c.videoToken, cf);
        assert Copies(prompt[0], ci[0]) == Tokens(RunOf(c, prompt[0], images[0]));
        PrependBlock(RunOf(c, prompt[0], images[0]), PromptBlocks(c, prompt[1..], images[1..], frames));
      } else if prompt[0] == c.videoToken {
        ExpansionSpellsBlocks(c, prompt[1..], images, frames[1..]);
        assert Copies(prompt[0], cf[0]) == Tokens(RunOf(c, prompt[0], frames[0]));
        assert Expanded(prompt, c.imageToken, ci)[1..] == Expanded(prompt[1..], c.imageToken, ci);
        PrependBlock(RunOf(c, prompt[0], frames[0]), PromptBlocks(c, prompt[1..], images, frames[1..]));
      } else {
        ExpansionSpellsBlocks(c, prompt[1..], images, frames);
        assert Expanded(prompt, c.imageToken, ci)[1..] == Expanded(prompt[1..], c.imageToken, ci);
        TextTokens(prompt[0]);
        PrependBlock(Text(prompt[0]), PromptBlocks(c, prompt[1..], images, frames));
      }
    }
  }

  lemma PrependBlock(b: Block, blocks: seq<Block>)
    requires ValidBlock(b) && ValidBlocks(blocks)
    ensures ValidBlocks([b] + blocks) && Stream([b] + blocks) == Tokens(b) + Stream(blocks)
  {
    assert ([b] + blocks)[1..] == blocks;
  }

  /** A prompt with matching grids and separated placeholders is always accepted, whatever surrounds them. */
  lemma ExpandedPromptIsAccepted(c: Config, prompt: seq<int>, images: seq<Grid>, frames: seq<Grid>)
    requires c.imageToken != c.videoToken && Separated(c, prompt) && GoodGrids(c, images) && GoodGrids(c, frames)
    requires Count(prompt, c.imageToken) == |images| && Count(prompt, c.videoToken) == |frames|
    ensures Count(Expanded(prompt, c.imageToken, GridCounts(c, images)), c.videoToken) == |frames|
    ensures
      var ids := Expanded(Expanded(prompt, c.imageToken, GridCounts(c, images)), c.videoToken, GridCounts(c, frames));
      Parse(c, ids, images, frames) == Ok(PromptBlocks(c, prompt, images, frames))
  {
    ExpansionSpellsBlocks(c, prompt, images, frames);
    PromptBlocksRendered(c, prompt, images, frames);
    ParseOfRendered(c, PromptBlocks(c, prompt, images, frames), images, frames);
  }
}
