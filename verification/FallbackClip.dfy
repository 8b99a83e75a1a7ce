/**
The walker itself: what it asks of the boxes it knows, and the walk with its counters.
*/
module FallbackClip {
  import opened Options
  import opened Mp4
  import opened Avc

  const MAX_SIDE := 1920
  const MAX_AREA := 2_073_600
  const MAX_SECONDS := 30

  // ---------------------------------------------------------------- the boxes it looks into

  predicate GoodHandler(body: Bytes) {
    |body| >= 24 && body[0] == 0 && (body[8..12] == VIDE || body[8..12] == SOUN)
  }

  /** A positive duration of at most thirty seconds, in either version of the header. */
  predicate GoodDuration(body: Bytes) {
    && |body| >= 20
    && (body[0] == 0 || (body[0] == 1 && |body| >= 32))
    && var scale := if body[0] == 0 then Num(body[12..16]) else Num(body[20..24]);
       var length := if body[0] == 0 then Num(body[16..20]) else Num(body[24..32]);
       0 < length <= scale * 30
  }

  predicate AvcEntry(body: Bytes) {
    |body| >= 16 && (body[12..16] == AVC1 || body[12..16] == AVC3)
  }

  predicate GoodSize(w: nat, h: nat) {
    0 < w <= 1920 && 0 < h <= 1920 && w * h <= 1920 * 1080
  }

  predicate GoodDescription(body: Bytes) {
    && |body| >= 16 && Num(body[4..8]) == 1
    && if AvcEntry(body) then
         var entry := body[8..];
         && |entry| >= 86 && Num(entry[..4]) == |entry|
         && GoodSize(Num(entry[32..34]), Num(entry[34..36]))
         && Accepted(entry[86..], false)
       else body[12..16] == MP4A
  }

  predicate GoodLeaf(tag: Bytes, body: Bytes) {
    && (tag == HDLR ==> GoodHandler(body))
    && (tag == MVHD ==> GoodDuration(body))
    && (tag == STSD ==> GoodDescription(body))
  }

  // ---------------------------------------------------------------- what it finds in a tree

  function Count(bs: Boxes): nat {
    match bs
    case Nil => 0
    case Cons(_, _, content, rest) => 1 + (if content.Nest? then Count(content.inner) else 0) + Count(rest)
  }

  predicate AllGood(bs: Boxes) {
    match bs
    case Nil => true
    case Cons(_, tag, content, rest) =>
      (match content case Leaf(body) => GoodLeaf(tag, body) case Nest(inner) => AllGood(inner)) && AllGood(rest)
  }

  predicate HasDuration(bs: Boxes) {
    match bs
    case Nil => false
    case Cons(_, tag, content, rest) =>
      (match content case Leaf(_) => tag == MVHD case Nest(inner) => HasDuration(inner)) || HasDuration(rest)
  }

  function Videos(bs: Boxes): nat {
    match bs
    case Nil => 0
    case Cons(_, tag, content, rest) =>
      (match content case Leaf(body) => if tag == STSD && AvcEntry(body) then 1
          else 0 case Nest(inner) => Videos(inner)) + Videos(rest)
  }

  /** The clips the application wants. */
  predicate Clip(bs: Boxes) {
    Fits(bs, 0) && Count(bs) <= 10_000 && AllGood(bs) && HasDuration(bs) && Videos(bs) == 1
  }

  lemma ContainersAre(tag: Bytes)
    ensures Container(tag) <==> tag == MOOV || tag == TRAK || tag == MDIA || tag == MINF || tag == STBL
  {
  }

  // ---------------------------------------------------------------- the walk

  class Walker {
    var boxes: nat
    var videos: nat
    var duration: bool

    constructor ()
      ensures boxes == 0 && videos == 0 && !duration
    {
      boxes, videos, duration := 0, 0, false;
    }

    method CheckLeaf(tag: Bytes, body: Bytes) returns (ok: bool)
      modifies this`videos, this`duration
      ensures ok <==> GoodLeaf(tag, body)
      ensures ok ==> videos == old(videos) + (if tag == STSD && AvcEntry(body) then 1 else 0)
      ensures ok ==> duration == (old(duration) || tag == MVHD)
    {
      hide Num;
      if tag == HDLR {
        if |body| < 24 || body[0] != 0 { return false; }
        var handler := body[8..12];
        return handler == VIDE || handler == SOUN;
      }
      if tag == MVHD {
        if |body| < 20 { return false; }
        var scale, length;
        if body[0] == 0 {
          scale, length := Num(body[12..16]), Num(body[16..20]);
        } else if body[0] == 1 && |body| >= 32 {
          scale, length := Num(body[20..24]), Num(body[24..32]);
        } else {
          return false;
        }
        if scale == 0 || length == 0 || length > scale * MAX_SECONDS { return false; }
        duration := true;
        return true;
      }
      if tag == STSD { ok := CheckDescription(body); } else { ok := true; }
    }

    method CheckDescription(body: Bytes) returns (ok: bool)
      modifies this`videos
      ensures ok <==> GoodDescription(body)
      ensures ok ==> videos == old(videos) + (if AvcEntry(body) then 1 else 0)
    {
      hide Num, Accepted;
      if |body| < 8 || Num(body[4..8]) != 1 { return false; }
      var entry := body[8..];
      if |entry| < 8 { return false; }
      var codec := entry[4..8];
      assert codec == body[12..16];
      if codec == AVC1 || codec == AVC3 {
        if |entry| < 86 || Num(entry[..4]) != |entry| { return false; }
        var w, h := Num(entry[32..34]), Num(entry[34..36]);
        if w <= 0 || h <= 0 || w > MAX_SIDE || h > MAX_SIDE || w * h > MAX_AREA { return false; }
        var supported := SupportedAvcConfiguration(entry[86..]);
        if !supported { return false; }
        videos := videos + 1;
        return true;
      }
      ok := codec == MP4A;
    }

    /** Walks one level: it succeeds exactly on a tree within the limits whose boxes are all good, and has then counted it. */
    method Walk(d: Bytes, depth: nat) returns (ok: bool)
      requires boxes <= BOXES
      modifies this
      ensures ok <==> Parse(d, depth).Some? && old(boxes) + Count(Parse(d, depth).value) <= BOXES && AllGood(Parse(d, depth).value)
      ensures ok ==> boxes == old(boxes) + Count(Parse(d, depth).value)
      ensures ok ==> videos == old(videos) + Videos(Parse(d, depth).value)
      ensures ok ==> duration == (old(duration) || HasDuration(Parse(d, depth).value))
      decreases |d|
    {
      hide Open, Num, GoodLeaf, AvcEntry, Container;
      if depth > DEPTH { return false; }
      var left := d;
      while left != []
        invariant |left| <= |d| && boxes <= BOXES
        invariant Counted(Parse(d, depth), old(boxes), old(videos), old(duration), Parse(left, depth), boxes, videos,
                  duration)
        decreases |left|
      {
        boxes := boxes + 1;
        var first := Open(left);
        if boxes > BOXES || first.Bad? { return false; }
        ContainersAre(first.tag);
        if first.tag == MOOV || first.tag == TRAK || first.tag == MDIA || first.tag == MINF || first.tag == STBL {
          ok := Walk(first.body, depth + 1);
        } else {
          ok := CheckLeaf(first.tag, first.body);
        }
        if !ok { return false; }
        left := first.left;
      }
      ok := true;
    }
  }

  /** What was counted so far and what is still to come make up the whole; what was passed so far was good. */
  ghost predicate Counted(whole: Option<Boxes>, boxes0: nat, videos0: nat, duration0: bool,
                          left: Option<Boxes>, boxes: nat, videos: nat, duration: bool)
  {
    && (whole.Some? <==> left.Some?)
    && (whole.Some? ==>
          && boxes0 + Count(whole.value) == boxes + Count(left.value)
          && videos0 + Videos(whole.value) == videos + Videos(left.value)
          && (duration0 || HasDuration(whole.value)) == (duration || HasDuration(left.value))
          && AllGood(whole.value) == AllGood(left.value))
  }

  /** The upload is accepted exactly when it is a clip the application wants, written down. */
  method ValidateFallback(data: Bytes) returns (ok: bool)
    ensures ok <==> exists bs :: Clip(bs) && Serial(bs) == data
  {
    hide Parse, Serial, Fits, Count, AllGood, HasDuration, Videos;
    var w := new Walker();
    ok := w.Walk(data, 0);
    ok := ok && w.duration && w.videos == 1;
    if Parse(data, 0).Some? { ParseIsSound(data, 0); }
    forall bs | Clip(bs) && Serial(bs) == data ensures Parse(data, 0) == Some(bs) { ParseIsComplete(bs, 0); }
  }

  /** A file is read in one way only: two trees with the same bytes are the same tree. */
  lemma OneReading(a: Boxes, b: Boxes)
    requires Fits(a, 0) && Fits(b, 0) && Serial(a) == Serial(b)
    ensures a == b
  {
    ParseIsComplete(a, 0);
    ParseIsComplete(b, 0);
  }
}
