/**
  The mesh converters: binobj2obj.py prints a .binobj as a Wavefront .obj, obj2binobj.py reads an
  .obj back into a .binobj. 32-bit floats are their bit patterns; how one is printed and parsed is
  a parameter. The text is the sequence of its lines.
 */
module Mesh {
  import opened Wrappers
  import opened Words
  import opened Text

  datatype Corner = Corner(position: int, uv: int, normal: int)

  datatype Mesh = Mesh(positions: seq<Uint32>, uvs: seq<Uint32>, normals: seq<Uint32>, corners: seq<Corner>)

  const EMPTY := Mesh([], [], [], [])

  // ---------- the binary format ----------

  predicate IsInt32(n: int) { -0x8000_0000 <= n < 0x8000_0000 }

  function ToWord(n: int): Uint32
    requires IsInt32(n)
  {
    if n < 0 then n + 0x1_0000_0000 else n
  }

  function FromWord(w: Uint32): (n: int)
    ensures IsInt32(n)
  {
    if w < 0x8000_0000 then w else w - 0x1_0000_0000
  }

  /** Words, big-endian, one after the other. */
  function WordBytes(ws: seq<Uint32>): (s: Bytes)
    ensures |s| == 4 * |ws|
  {
    seq(4 * |ws|, k requires 0 <= k < 4 * |ws| => Digit(ws[k / 4], 3 - k % 4))
  }

  /** A count and that many 32-bit floats. */
  function FloatBlock(ws: seq<Uint32>): (s: Bytes)
    requires |ws| < 0x8000_0000
    ensures |s| == 4 + 4 * |ws|
  {
    WordBytes([|ws|]) + WordBytes(ws)
  }

  predicate IsCorner(c: Corner) { IsInt32(c.position) && IsInt32(c.uv) && IsInt32(c.normal) }

  function Index(c: Corner, k: nat): int { if k == 0 then c.position else if k == 1 then c.uv else c.normal }

  ghost predicate AreCorners(cs: seq<Corner>) { forall i :: 0 <= i < |cs| ==> IsCorner(cs[i]) }

  function CornerWords(cs: seq<Corner>): (ws: seq<Uint32>)
    requires AreCorners(cs)
    ensures |ws| == 3 * |cs|
  {
    seq(3 * |cs|, k requires 0 <= k < 3 * |cs| => assert IsCorner(cs[k / 3]); ToWord(Index(cs[k / 3], k % 3)))
  }

  function CornerBlock(cs: seq<Corner>): (s: Bytes)
    requires |cs| < 0x8000_0000 && AreCorners(cs)
    ensures |s| == 4 + 12 * |cs|
  {
    WordBytes([|cs|]) + WordBytes(CornerWords(cs))
  }

  /** What struct.pack accepts. */
  ghost predicate Packable(m: Mesh) {
    && |m.positions| < 0x8000_0000 && |m.uvs| < 0x8000_0000 && |m.normals| < 0x8000_0000
    && |m.corners| < 0x8000_0000 && AreCorners(m.corners)
  }

  function Encode(m: Mesh): Bytes
    requires Packable(m)
  {
    FloatBlock(m.positions) + FloatBlock(m.uvs) + FloatBlock(m.normals) + CornerBlock(m.corners)
  }

  function WordAt(d: Bytes, o: nat): Uint32
    requires o + 4 <= |d|
  {
    var s := [d[o + 3], d[o + 2], d[o + 1], d[o]];
    ValueOfFour(s);
    Value(s)
  }

  function WordsAt(d: Bytes, o: nat, n: nat): (ws: seq<Uint32>)
    requires o + 4 * n <= |d|
    ensures |ws| == n
  {
    seq(n, i requires 0 <= i < n => WordAt(d, o + 4 * i))
  }

  /** read_floats(read_int()): None is a struct.error, for a negative count too. */
  function FloatsAt(d: Bytes, o: nat): Option<(seq<Uint32>, nat)> {
    if o + 4 > |d| then None
    else
      var n := FromWord(WordAt(d, o));
      if n < 0 || o + 4 + 4 * n > |d| then None else Some((WordsAt(d, o + 4, n), o + 4 + 4 * n))
  }

  function CornerOf(ws: seq<Uint32>, i: nat): Corner
    requires 3 * i + 2 < |ws|
  {
    Corner(FromWord(ws[3 * i]), FromWord(ws[3 * i + 1]), FromWord(ws[3 * i + 2]))
  }

  function CornersOf(ws: seq<Uint32>): (cs: seq<Corner>)
    ensures |cs| == |ws| / 3
  {
    seq(|ws| / 3, i requires 0 <= i < |ws| / 3 => CornerOf(ws, i))
  }

  /** The corners, and the final offset. A negative count reads nothing and moves the offset back, which the
      caller's length check refuses. */
  function CornersAt(d: Bytes, o: nat): Option<(seq<Corner>, int)> {
    if o + 4 > |d| then None
    else
      var n := FromWord(WordAt(d, o));
      if n < 0 then Some(([], o + 4 + 12 * n))
      else if o + 4 + 12 * n > |d| then None
      else Some((CornersOf(WordsAt(d, o + 4, 3 * n)), o + 4 + 12 * n))
  }

  function Decode(d: Bytes): Option<Mesh> {
    match FloatsAt(d, 0)
    case None => None
    case Some((positions, o1)) =>
      match FloatsAt(d, o1)
      case None => None
      case Some((uvs, o2)) =>
        match FloatsAt(d, o2)
        case None => None
        case Some((normals, o3)) =>
          match CornersAt(d, o3)
          case None => None
          case Some((corners, o4)) => if o4 != |d| then None else Some(Mesh(positions, uvs, normals, corners))
  }

  // ---------- reading what was written ----------

  lemma WordRead(d: Bytes, o: nat, w: Uint32)
    requires o + 4 <= |d|
    ensures WordAt(d, o) == w
       <==> d[o] == Digit(w, 3) && d[o + 1] == Digit(w, 2) && d[o + 2] == Digit(w, 1) && d[o + 3] == Digit(w, 0)
  {
    var s := [d[o + 3], d[o + 2], d[o + 1], d[o]];
    ValueOfDigits(w);
    DigitsOfValue(s);
    hide Digit, Value;
    assert s == LeU32(w) <==> s[0] == Digit(w, 0) && s[1] == Digit(w, 1) && s[2] == Digit(w, 2) && s[3] == Digit(w, 3);
  }

  lemma WordsRead(d: Bytes, o: nat, ws: seq<Uint32>)
    ensures (o + 4 * |ws| <= |d| && WordsAt(d, o, |ws|) == ws) <==> At(d, o, WordBytes(ws))
  {
    hide Digit, WordAt;
    var s := WordBytes(ws);
    if o + 4 * |ws| <= |d| {
      if WordsAt(d, o, |ws|) == ws {
        forall k | 0 <= k < 4 * |ws|
          ensures d[o + k] == s[k]
        {
          assert WordsAt(d, o, |ws|)[k / 4] == WordAt(d, o + 4 * (k / 4)) == ws[k / 4];
          WordRead(d, o + 4 * (k / 4), ws[k / 4]);
          assert k == 4 * (k / 4) + k % 4;
        }
        assert d[o..o + 4 * |ws|] == s;
      }
      if At(d, o, s) {
        forall i | 0 <= i < |ws|
          ensures WordAt(d, o + 4 * i) == ws[i]
        {
          WordAtOf(d, o, ws, i);
        }
      }
    }
  }

  lemma WordAtOf(d: Bytes, o: nat, ws: seq<Uint32>, i: nat)
    requires At(d, o, WordBytes(ws)) && i < |ws|
    ensures WordAt(d, o + 4 * i) == ws[i]
  {
    hide Digit, WordAt;
    var s := WordBytes(ws);
    assert forall k :: 0 <= k < |s| ==> d[o + k] == d[o..o + |s|][k] == s[k];
    assert s[4 * i] == Digit(ws[i], 3) && s[4 * i + 1] == Digit(ws[i], 2);
    assert s[4 * i + 2] == Digit(ws[i], 1) && s[4 * i + 3] == Digit(ws[i], 0);
    WordRead(d, o + 4 * i, ws[i]);
  }

  lemma OneWordRead(d: Bytes, o: nat, w: Uint32)
    ensures (o + 4 <= |d| && WordAt(d, o) == w) <==> At(d, o, WordBytes([w]))
  {
    hide WordAt, At;
    WordsRead(d, o, [w]);
    if o + 4 <= |d| {
      assert WordsAt(d, o, 1) == [WordAt(d, o)];
    }
  }

  lemma FloatsRead(d: Bytes, o: nat, ws: seq<Uint32>, end: nat)
    ensures FloatsAt(d, o) == Some((ws, end))
       <==> |ws| < 0x8000_0000 && At(d, o, FloatBlock(ws)) && end == o + 4 + 4 * |ws|
  {
    hide WordAt, WordBytes, WordsAt, At;
    if |ws| < 0x8000_0000 {
      AtConcat(d, o, WordBytes([|ws|]), WordBytes(ws));
      OneWordRead(d, o, |ws|);
      WordsRead(d, o + 4, ws);
    }
  }

  lemma CornersRoundTrip(cs: seq<Corner>)
    requires AreCorners(cs)
    ensures CornersOf(CornerWords(cs)) == cs
  {
    var ws := CornerWords(cs);
    forall i | 0 <= i < |cs|
      ensures CornerOf(ws, i) == cs[i]
    {
      assert IsCorner(cs[i]);
      assert ws[3 * i] == ToWord(cs[i].position) && ws[3 * i + 1] == ToWord(cs[i].uv)
          && ws[3 * i + 2] == ToWord(cs[i].normal);
    }
  }

  lemma WordsRoundTrip(ws: seq<Uint32>)
    requires |ws| % 3 == 0
    ensures AreCorners(CornersOf(ws)) && CornerWords(CornersOf(ws)) == ws
  {
    var cs := CornersOf(ws);
    assert forall i :: 0 <= i < |cs| ==> cs[i] == CornerOf(ws, i);
    forall k | 0 <= k < |ws|
      ensures CornerWords(cs)[k] == ws[k]
    {
      var i := k / 3;
      assert k == 3 * i + k % 3;
      assert cs[i] == CornerOf(ws, i);
    }
  }

  lemma CornersRead(d: Bytes, o: nat, cs: seq<Corner>)
    ensures CornersAt(d, o) == Some((cs, |d|))
       <==> |cs| < 0x8000_0000 && AreCorners(cs) && At(d, o, CornerBlock(cs)) && |d| == o + 4 + 12 * |cs|
  {
    hide WordAt, WordBytes, WordsAt, At, CornerWords, CornersOf, AreCorners;
    if |cs| < 0x8000_0000 && AreCorners(cs) {
      AtConcat(d, o, WordBytes([|cs|]), WordBytes(CornerWords(cs)));
      OneWordRead(d, o, |cs|);
      WordsRead(d, o + 4, CornerWords(cs));
      CornersRoundTrip(cs);
    }
    if CornersAt(d, o) == Some((cs, |d|)) {
      var ws := WordsAt(d, o + 4, 3 * FromWord(WordAt(d, o)));
      WordsRoundTrip(ws);
      OneWordRead(d, o, |cs|);
      WordsRead(d, o + 4, ws);
      AtConcat(d, o, WordBytes([|cs|]), WordBytes(ws));
    }
  }

  /** Where the blocks of a mesh start. */
  function Start2(m: Mesh): nat { 4 + 4 * |m.positions| }

  function Start3(m: Mesh): nat { Start2(m) + 4 + 4 * |m.uvs| }

  function Start4(m: Mesh): nat { Start3(m) + 4 + 4 * |m.normals| }

  lemma BlocksAt(d: Bytes, m: Mesh)
    requires Packable(m)
    ensures At(d, 0, Encode(m))
       <==> && At(d, 0, FloatBlock(m.positions)) && At(d, Start2(m), FloatBlock(m.uvs))
            && At(d, Start3(m), FloatBlock(m.normals)) && At(d, Start4(m), CornerBlock(m.corners))
    ensures |Encode(m)| == Start4(m) + 4 + 12 * |m.corners|
  {
    hide At, FloatBlock, CornerBlock, AreCorners;
    var p, u, n, c := FloatBlock(m.positions), FloatBlock(m.uvs), FloatBlock(m.normals), CornerBlock(m.corners);
    AtConcat(d, 0, p + u + n, c);
    AtConcat(d, 0, p + u, n);
    AtConcat(d, 0, p, u);
  }

  /** The reader accepts exactly the encodings, and returns what was encoded. */
  lemma DecodeExactly(d: Bytes, m: Mesh)
    ensures Decode(d) == Some(m) <==> Packable(m) && d == Encode(m)
  {
    hide FloatsAt, CornersAt, At, FloatBlock, CornerBlock, AreCorners, Encode;
    FloatsRead(d, 0, m.positions, Start2(m));
    FloatsRead(d, Start2(m), m.uvs, Start3(m));
    FloatsRead(d, Start3(m), m.normals, Start4(m));
    CornersRead(d, Start4(m), m.corners);
    if Decode(d) == Some(m) {
      FloatsEnd(d, 0);
      FloatsEnd(d, Start2(m));
      FloatsEnd(d, Start3(m));
    }
    if Packable(m) {
      BlocksAt(d, m);
      WholeAt(d, Encode(m));
    }
  }

  lemma FloatsEnd(d: Bytes, o: nat)
    ensures FloatsAt(d, o).Some? ==> FloatsAt(d, o).value.1 == o + 4 + 4 * |FloatsAt(d, o).value.0|
  {
  }

  // ---------- the text format ----------

  /** '%.9g' and float() followed by the rounding to 32 bits; None is a ValueError or an OverflowError. */
  datatype FloatFormat = FloatFormat(show: Uint32 -> string, parse: string -> Option<Uint32>)

  /** A printed float is one word of text. */
  ghost predicate PrintsTokens(fmt: FloatFormat) {
    forall w: Uint32 :: IsToken(fmt.show(w))
  }

  ghost predicate Parses(fmt: FloatFormat, ws: seq<Uint32>) {
    forall i :: 0 <= i < |ws| ==> fmt.parse(fmt.show(ws[i])).Some?
  }

  function Reparsed(fmt: FloatFormat, ws: seq<Uint32>): (r: seq<Uint32>)
    requires Parses(fmt, ws)
    ensures |r| == |ws|
  {
    seq(|ws|, i requires 0 <= i < |ws| => fmt.parse(fmt.show(ws[i])).value)
  }

  /** Printing and parsing gives every bit pattern back. (It does not for a NaN with a payload.) */
  ghost predicate Faithful(fmt: FloatFormat, ws: seq<Uint32>) {
    forall i :: 0 <= i < |ws| ==> fmt.parse(fmt.show(ws[i])) == Some(ws[i])
  }

  datatype Kind = Position | Uv | Normal

  function Tag(k: Kind): string { match k case Position => "v" case Uv => "vt" case Normal => "vn" }

  function Arity(k: Kind): nat { if k == Uv then 2 else 3 }

  function Get(m: Mesh, k: Kind): seq<Uint32> {
    match k case Position => m.positions case Uv => m.uvs case Normal => m.normals
  }

  function Add(m: Mesh, k: Kind, ws: seq<Uint32>): Mesh {
    match k
    case Position => m.(positions := m.positions + ws)
    case Uv => m.(uvs := m.uvs + ws)
    case Normal => m.(normals := m.normals + ws)
  }

  function Shown(fmt: FloatFormat, ws: seq<Uint32>): (t: seq<string>)
    ensures |t| == |ws|
  {
    seq(|ws|, i requires 0 <= i < |ws| => fmt.show(ws[i]))
  }

  /** The components of the i-th vector. */
  function Vector(k: Kind, ws: seq<Uint32>, i: nat): (v: seq<Uint32>)
    requires Arity(k) * (i + 1) <= |ws|
    ensures |v| == Arity(k)
  {
    ws[Arity(k) * i..Arity(k) * i + Arity(k)]
  }

  function VectorTokens(fmt: FloatFormat, k: Kind, ws: seq<Uint32>, i: nat): seq<string>
    requires Arity(k) * (i + 1) <= |ws|
  {
    [Tag(k)] + Shown(fmt, Vector(k, ws, i))
  }

  function VectorLines(fmt: FloatFormat, k: Kind, ws: seq<Uint32>): (lines: seq<string>)
    ensures |lines| == |ws| / Arity(k)
  {
    seq(|ws| / Arity(k), i requires 0 <= i < |ws| / Arity(k) => Join(VectorTokens(fmt, k, ws, i)))
  }

  function CornerText(c: Corner): string {
    PrintInt(c.position + 1) + "/" + PrintInt(c.uv + 1) + "/" + PrintInt(c.normal + 1)
  }

  function FaceTokens(cs: seq<Corner>, t: nat): seq<string>
    requires 3 * t + 2 < |cs|
  {
    ["f", CornerText(cs[3 * t]), CornerText(cs[3 * t + 1]), CornerText(cs[3 * t + 2])]
  }

  function FaceLines(cs: seq<Corner>): (lines: seq<string>)
    ensures |lines| == |cs| / 3
  {
    seq(|cs| / 3, t requires 0 <= t < |cs| / 3 => Join(FaceTokens(cs, t)))
  }

  const HEADING: seq<string> := [
    "#" + (" " + "3D mesh decoded from .binobj (source of truth; baked back to .binobj at build time)."),
    "#" + (" " + "UVs are stored raw here; the V coordinate is flipped (1-v) at load time.")]

  function Print(fmt: FloatFormat, m: Mesh): seq<string> {
    HEADING + VectorLines(fmt, Position, m.positions) + VectorLines(fmt, Uv, m.uvs)
    + VectorLines(fmt, Normal, m.normals) + FaceLines(m.corners)
  }

  // ---------- reading the text ----------

  function ParseVector(fmt: FloatFormat, parts: seq<string>, n: nat): Option<seq<Uint32>>
    requires n < |parts|
  {
    if n == 0 then Some([])
    else
      var before :- ParseVector(fmt, parts, n - 1);
      var last :- fmt.parse(parts[n]);
      Some(before + [last])
  }

  function ParseField(field: string): Option<int> {
    if field == "" then Some(-1)
    else
      var n :- ParseInt(field);
      Some(n - 1)
  }

  function ParseCorner(vertex: string): Option<Corner> {
    var fields := (SplitOn(vertex, '/') + ["", ""])[..3];
    var position :- ParseField(fields[0]);
    var uv :- ParseField(fields[1]);
    var normal :- ParseField(fields[2]);
    Some(Corner(position, uv, normal))
  }

  function ParseFace(vertices: seq<string>): (r: Option<seq<Corner>>)
    ensures r.Some? ==> |r.value| == |vertices|
    decreases |vertices|
  {
    if |vertices| == 0 then Some([])
    else
      var before :- ParseFace(vertices[..|vertices| - 1]);
      var last :- ParseCorner(vertices[|vertices| - 1]);
      Some(before + [last])
  }

  /** The triangles of a face: its first corner with each two neighbours among the others. */
  function Fan(face: seq<Corner>): (cs: seq<Corner>)
    ensures |cs| == if |face| < 3 then 0 else 3 * (|face| - 2)
  {
    var n := if |face| < 3 then 0 else 3 * (|face| - 2);
    seq(n, k requires 0 <= k < n => if k % 3 == 0 then face[0] else face[k / 3 + k % 3])
  }

  function KindOf(tag: string): Option<Kind> {
    if tag == "v" then Some(Position) else if tag == "vt" then Some(Uv) else if tag == "vn" then Some(Normal) else None
  }

  /** One line; None is an exception. */
  function ReadLine(fmt: FloatFormat, m: Mesh, line: string): Option<Mesh> {
    var parts := Split(line);
    if |parts| == 0 || (|parts[0]| > 0 && parts[0][0] == '#') then Some(m)
    else if KindOf(parts[0]).Some? then
      var k := KindOf(parts[0]).value;
      if |parts| <= Arity(k) then None
      else
        var ws :- ParseVector(fmt, parts, Arity(k));
        Some(Add(m, k, ws))
    else if parts[0] == "f" then
      var face :- ParseFace(parts[1..]);
      Some(m.(corners := m.corners + Fan(face)))
    else Some(m)
  }

  function Read(fmt: FloatFormat, m: Mesh, lines: seq<string>): Option<Mesh>
    decreases |lines|
  {
    if |lines| == 0 then Some(m)
    else
      var before :- Read(fmt, m, lines[..|lines| - 1]);
      ReadLine(fmt, before, lines[|lines| - 1])
  }

  /** obj2binobj.py: the bytes it writes; None is an exception. */
  ghost function Obj2Binobj(fmt: FloatFormat, lines: seq<string>): Option<Bytes> {
    match Read(fmt, EMPTY, lines)
    case None => None
    case Some(m) => if Packable(m) then Some(Encode(m)) else None
  }

  // ---------- a printed line is read back ----------

  lemma {:induction false} ReadAppend(fmt: FloatFormat, m: Mesh, a: seq<string>, b: seq<string>)
    ensures Read(fmt, m, a + b) == match Read(fmt, m, a) case None => None case Some(x) => Read(fmt, x, b)
    decreases |b|
  {
    if |b| == 0 {
      assert a + b == a;
    } else {
      var n := |b| - 1;
      assert (a + b)[..|a + b| - 1] == a + b[..n];
      ReadAppend(fmt, m, a, b[..n]);
    }
  }

  lemma {:induction false} ParseShown(fmt: FloatFormat, parts: seq<string>, ws: seq<Uint32>, n: nat)
    requires n <= |ws| && |parts| == 1 + |ws| && parts[1..] == Shown(fmt, ws)
    ensures ParseVector(fmt, parts, n) == if Parses(fmt, ws[..n]) then Some(Reparsed(fmt, ws[..n])) else None
  {
    if n > 0 {
      ParseShown(fmt, parts, ws, n - 1);
      assert parts[n] == parts[1..][n - 1] == fmt.show(ws[n - 1]);
      ParsesOne(fmt, ws[n - 1]);
      ParsesMore(fmt, ws[..n - 1], [ws[n - 1]]);
      assert ws[..n] == ws[..n - 1] + [ws[n - 1]];
    }
  }

  lemma ParsesOne(fmt: FloatFormat, w: Uint32)
    ensures Parses(fmt, [w]) <==> fmt.parse(fmt.show(w)).Some?
    ensures Parses(fmt, [w]) ==> Reparsed(fmt, [w]) == [fmt.parse(fmt.show(w)).value]
  {
    assert [w][0] == w;
  }

  lemma ParsesMore(fmt: FloatFormat, a: seq<Uint32>, b: seq<Uint32>)
    ensures Parses(fmt, a + b) <==> Parses(fmt, a) && Parses(fmt, b)
    ensures Parses(fmt, a + b) ==> Reparsed(fmt, a + b) == Reparsed(fmt, a) + Reparsed(fmt, b)
  {
    var c := a + b;
    if Parses(fmt, c) {
      assert forall i :: 0 <= i < |a| ==> c[i] == a[i];
      assert forall i :: 0 <= i < |b| ==> c[|a| + i] == b[i];
    }
    if Parses(fmt, a) && Parses(fmt, b) {
      assert forall i :: 0 <= i < |c| ==> c[i] == if i < |a| then a[i] else b[i - |a|];
    }
  }

  lemma TagToken(k: Kind)
    ensures IsToken(Tag(k)) && Tag(k)[0] != '#' && KindOf(Tag(k)) == Some(k)
  {
  }

  lemma VectorLineRead(fmt: FloatFormat, m: Mesh, k: Kind, v: seq<Uint32>)
    requires PrintsTokens(fmt) && |v| == Arity(k)
    ensures ReadLine(fmt, m, Join([Tag(k)] + Shown(fmt, v)))
         == if Parses(fmt, v) then Some(Add(m, k, Reparsed(fmt, v))) else None
  {
    hide Split, Join, Tag, IsToken, Parses, ParseVector, KindOf;
    var parts := [Tag(k)] + Shown(fmt, v);
    TagToken(k);
    assert forall i :: 1 <= i < |parts| ==> parts[i] == fmt.show(v[i - 1]);
    SplitJoin(parts);
    assert parts[1..] == Shown(fmt, v);
    ParseShown(fmt, parts, v, Arity(k));
    assert v[..Arity(k)] == v;
  }

  /** The components of the first n vectors. */
  function Vectors(k: Kind, ws: seq<Uint32>, n: nat): seq<Uint32>
    requires Arity(k) * n <= |ws|
  {
    ws[..Arity(k) * n]
  }

  lemma NextVector(k: Kind, ws: seq<Uint32>, n: nat)
    requires Arity(k) * (n + 1) <= |ws|
    ensures Arity(k) * n <= |ws| && Vectors(k, ws, n + 1) == Vectors(k, ws, n) + Vector(k, ws, n)
  {
  }

  lemma AddTwice(m: Mesh, k: Kind, a: seq<Uint32>, b: seq<Uint32>)
    ensures Add(Add(m, k, a), k, b) == Add(m, k, a + b)
  {
    assert Get(m, k) + a + b == Get(m, k) + (a + b);
  }

  lemma {:induction false} VectorLinesRead(fmt: FloatFormat, m: Mesh, k: Kind, ws: seq<Uint32>, n: nat)
    requires PrintsTokens(fmt) && n <= |ws| / Arity(k)
    ensures Arity(k) * n <= |ws|
    ensures Read(fmt, m, VectorLines(fmt, k, ws)[..n])
         == if Parses(fmt, Vectors(k, ws, n)) then Some(Add(m, k, Reparsed(fmt, Vectors(k, ws, n)))) else None
  {
    hide ReadLine, Join, Parses;
    assert k == Uv || Arity(k) == 3;
    var lines := VectorLines(fmt, k, ws);
    if n == 0 {
      NoVectors(fmt, m, k);
    } else {
      VectorLinesRead(fmt, m, k, ws, n - 1);
      assert lines[..n][..n - 1] == lines[..n - 1];
      NextVector(k, ws, n - 1);
      ParsesMore(fmt, Vectors(k, ws, n - 1), Vector(k, ws, n - 1));
      if Parses(fmt, Vectors(k, ws, n - 1)) {
        var before := Reparsed(fmt, Vectors(k, ws, n - 1));
        VectorLineRead(fmt, Add(m, k, before), k, Vector(k, ws, n - 1));
        if Parses(fmt, Vector(k, ws, n - 1)) {
          AddTwice(m, k, before, Reparsed(fmt, Vector(k, ws, n - 1)));
        }
      }
    }
  }

  lemma NoVectors(fmt: FloatFormat, m: Mesh, k: Kind)
    ensures Parses(fmt, []) && Add(m, k, Reparsed(fmt, [])) == m
  {
    assert Get(m, k) + [] == Get(m, k);
    assert Reparsed(fmt, []) == [];
  }

  // ---------- faces ----------

  /** A triangle stays as it is. */
  lemma FanOfTriangle(face: seq<Corner>)
    requires |face| == 3
    ensures Fan(face) == face
  {
  }

  /** A face of n corners becomes n - 2 triangles; the i-th joins the first corner to corners i + 1 and i + 2. */
  lemma FanTriangles(face: seq<Corner>, i: nat)
    requires i + 2 < |face|
    ensures |Fan(face)| == 3 * (|face| - 2)
    ensures Fan(face)[3 * i..3 * i + 3] == [face[0], face[i + 1], face[i + 2]]
  {
    var f := Fan(face);
    assert f[3 * i] == face[0] && f[3 * i + 1] == face[i + 1] && f[3 * i + 2] == face[i + 2];
  }

  lemma FieldRead(n: int)
    ensures ParseField(PrintInt(n + 1)) == Some(n)
  {
    ParsePrinted(n + 1);
  }

  lemma CornerTextRead(c: Corner)
    ensures ParseCorner(CornerText(c)) == Some(c)
  {
    hide PrintInt, ParseField, SplitOn, Without;
    var a, b, d := PrintInt(c.position + 1), PrintInt(c.uv + 1), PrintInt(c.normal + 1);
    PrintedCharacters(c.position + 1);
    PrintedCharacters(c.uv + 1);
    PrintedCharacters(c.normal + 1);
    SplitOnTwo(a, b, d, '/');
    assert ([a, b, d] + ["", ""])[..3] == [a, b, d];
    FieldRead(c.position);
    FieldRead(c.uv);
    FieldRead(c.normal);
  }

  lemma JoinedTokens(a: string, b: string, c: char)
    requires IsToken(a) && IsToken(b) && !IsSpace(c)
    ensures IsToken(a + [c] + b)
  {
  }

  lemma CornerToken(c: Corner)
    ensures IsToken(CornerText(c))
  {
    hide PrintInt, IsToken;
    PrintedCharacters(c.position + 1);
    PrintedCharacters(c.uv + 1);
    PrintedCharacters(c.normal + 1);
    JoinedTokens(PrintInt(c.position + 1), PrintInt(c.uv + 1), '/');
    JoinedTokens(PrintInt(c.position + 1) + "/" + PrintInt(c.uv + 1), PrintInt(c.normal + 1), '/');
  }

  lemma ParseOneMore(init: seq<string>, last: string, cs: seq<Corner>, c: Corner)
    requires ParseFace(init) == Some(cs) && ParseCorner(last) == Some(c)
    ensures ParseFace(init + [last]) == Some(cs + [c])
  {
    hide ParseCorner;
    assert (init + [last])[..|init|] == init;
  }

  lemma ParseTriangle(a: Corner, b: Corner, c: Corner)
    ensures ParseFace([CornerText(a), CornerText(b), CornerText(c)]) == Some([a, b, c])
  {
    hide ParseCorner, CornerText;
    CornerTextRead(a);
    CornerTextRead(b);
    CornerTextRead(c);
    assert ParseFace([]) == Some([]);
    hide ParseFace;
    var x, y, z := CornerText(a), CornerText(b), CornerText(c);
    assert [] + [x] == [x] && [x] + [y] == [x, y] && [x, y] + [z] == [x, y, z];
    assert [] + [a] == [a] && [a] + [b] == [a, b] && [a, b] + [c] == [a, b, c];
    ParseOneMore([], x, [], a);
    ParseOneMore([x], y, [a], b);
    ParseOneMore([x, y], z, [a, b], c);
  }

  lemma FaceLineRead(fmt: FloatFormat, m: Mesh, cs: seq<Corner>, t: nat)
    requires 3 * t + 2 < |cs|
    ensures ReadLine(fmt, m, Join(FaceTokens(cs, t))) == Some(AddCorners(m, cs[3 * t..3 * t + 3]))
  {
    hide Split, Join, CornerText, ParseFace, IsToken, Fan, ParseVector;
    var a, b, c := cs[3 * t], cs[3 * t + 1], cs[3 * t + 2];
    var parts := FaceTokens(cs, t);
    CornerToken(a);
    CornerToken(b);
    CornerToken(c);
    FToken();
    SplitJoin(parts);
    assert parts[1..] == [CornerText(a), CornerText(b), CornerText(c)];
    ParseTriangle(a, b, c);
    FanOfTriangle([a, b, c]);
    assert cs[3 * t..3 * t + 3] == [a, b, c];
  }

  lemma FToken()
    ensures IsToken("f") && KindOf("f").None?
  {
  }

  function AddCorners(m: Mesh, cs: seq<Corner>): Mesh { m.(corners := m.corners + cs) }

  lemma AddCornersTwice(m: Mesh, cs: seq<Corner>, n: nat)
    requires n + 3 <= |cs|
    ensures AddCorners(AddCorners(m, cs[..n]), cs[n..n + 3]) == AddCorners(m, cs[..n + 3])
  {
    assert cs[..n + 3] == cs[..n] + cs[n..n + 3];
    assert m.corners + cs[..n] + cs[n..n + 3] == m.corners + (cs[..n] + cs[n..n + 3]);
  }

  lemma {:induction false} FaceLinesRead(fmt: FloatFormat, m: Mesh, cs: seq<Corner>, n: nat)
    requires n <= |cs| / 3
    ensures Read(fmt, m, FaceLines(cs)[..n]) == Some(AddCorners(m, cs[..3 * n]))
  {
    hide ReadLine, Join, FaceTokens;
    if n == 0 {
      assert m.corners + cs[..0] == m.corners;
    } else {
      FaceLinesRead(fmt, m, cs, n - 1);
      assert FaceLines(cs)[..n][..n - 1] == FaceLines(cs)[..n - 1];
      FaceLineRead(fmt, AddCorners(m, cs[..3 * (n - 1)]), cs, n - 1);
      AddCornersTwice(m, cs, 3 * (n - 1));
    }
  }

  // ---------- the whole round trip ----------

  lemma HashLine(fmt: FloatFormat, m: Mesh, rest: string)
    requires |rest| > 0 && rest[0] == ' '
    ensures ReadLine(fmt, m, "#" + rest) == Some(m)
  {
    hide Split;
    SplitFirst("#", rest);
  }

  lemma HeadingRead(fmt: FloatFormat, m: Mesh)
    ensures Read(fmt, m, HEADING) == Some(m)
  {
    hide ReadLine;
    var a := " " + "3D mesh decoded from .binobj (source of truth; baked back to .binobj at build time).";
    var b := " " + "UVs are stored raw here; the V coordinate is flipped (1-v) at load time.";
    HashLine(fmt, m, a);
    HashLine(fmt, m, b);
    assert HEADING == ["#" + a, "#" + b];
    TwoLines(fmt, m, "#" + a, "#" + b);
  }

  lemma TwoLines(fmt: FloatFormat, m: Mesh, a: string, b: string)
    requires ReadLine(fmt, m, a) == Some(m) && ReadLine(fmt, m, b) == Some(m)
    ensures Read(fmt, m, [a, b]) == Some(m)
  {
    hide ReadLine;
    assert [a, b][..1] == [a] && [a][..0] == [];
    assert Read(fmt, m, [a]) == Some(m);
  }

  /** The floats that come in whole vectors. */
  function Whole(k: Kind, m: Mesh): seq<Uint32> {
    assert k == Uv || Arity(k) == 3;
    Vectors(k, Get(m, k), |Get(m, k)| / Arity(k))
  }

  /** Every printed float can be parsed. */
  ghost predicate AllParse(fmt: FloatFormat, m: Mesh) {
    Parses(fmt, Whole(Position, m)) && Parses(fmt, Whole(Uv, m)) && Parses(fmt, Whole(Normal, m))
  }

  /** What reading the printed mesh yields: the whole vectors and triangles, floats printed and parsed. */
  ghost function Back(fmt: FloatFormat, m: Mesh): Mesh
    requires AllParse(fmt, m)
  {
    Mesh(Reparsed(fmt, Whole(Position, m)), Reparsed(fmt, Whole(Uv, m)), Reparsed(fmt, Whole(Normal, m)),
         m.corners[..3 * (|m.corners| / 3)])
  }

  lemma KindLinesRead(fmt: FloatFormat, x: Mesh, k: Kind, m: Mesh)
    requires PrintsTokens(fmt)
    ensures Read(fmt, x, VectorLines(fmt, k, Get(m, k)))
         == if Parses(fmt, Whole(k, m)) then Some(Add(x, k, Reparsed(fmt, Whole(k, m)))) else None
  {
    hide Parses, Read, VectorLines;
    var lines := VectorLines(fmt, k, Get(m, k));
    VectorLinesRead(fmt, x, k, Get(m, k), |lines|);
    assert lines[..|lines|] == lines;
  }

  lemma NothingBefore<T>(a: seq<T>, b: seq<T>)
    requires a == []
    ensures a + b == b
  {
  }

  lemma PrintedRead(fmt: FloatFormat, m: Mesh)
    requires PrintsTokens(fmt)
    ensures Read(fmt, EMPTY, Print(fmt, m)) == if AllParse(fmt, m) then Some(Back(fmt, m)) else None
  {
    hide Parses, Read, VectorLines, FaceLines, HEADING, Whole;
    var v, t, n, f := VectorLines(fmt, Position, m.positions), VectorLines(fmt, Uv, m.uvs),
      VectorLines(fmt, Normal, m.normals), FaceLines(m.corners);
    HeadingRead(fmt, EMPTY);
    ReadAppend(fmt, EMPTY, HEADING, v);
    ReadAppend(fmt, EMPTY, HEADING + v, t);
    ReadAppend(fmt, EMPTY, HEADING + v + t, n);
    ReadAppend(fmt, EMPTY, HEADING + v + t + n, f);
    KindLinesRead(fmt, EMPTY, Position, m);
    if Parses(fmt, Whole(Position, m)) {
      var m1 := Add(EMPTY, Position, Reparsed(fmt, Whole(Position, m)));
      NothingBefore([], Reparsed(fmt, Whole(Position, m)));
      KindLinesRead(fmt, m1, Uv, m);
      if Parses(fmt, Whole(Uv, m)) {
        var m2 := Add(m1, Uv, Reparsed(fmt, Whole(Uv, m)));
        NothingBefore([], Reparsed(fmt, Whole(Uv, m)));
        KindLinesRead(fmt, m2, Normal, m);
        if Parses(fmt, Whole(Normal, m)) {
          var m3 := Add(m2, Normal, Reparsed(fmt, Whole(Normal, m)));
          NothingBefore([], Reparsed(fmt, Whole(Normal, m)));
          FaceLinesRead(fmt, m3, m.corners, |f|);
          assert f[..|f|] == f;
          NothingBefore(m3.corners, m.corners[..3 * |f|]);
        }
      }
    }
  }

  /** What a round trip needs: whole vectors, whole triangles, and floats whose text gives them back. */
  ghost predicate RoundTrips(fmt: FloatFormat, m: Mesh) {
    && |m.positions| % 3 == 0 && |m.uvs| % 2 == 0 && |m.normals| % 3 == 0 && |m.corners| % 3 == 0
    && Faithful(fmt, m.positions) && Faithful(fmt, m.uvs) && Faithful(fmt, m.normals)
  }

  lemma FaithfulIsReparsed(fmt: FloatFormat, ws: seq<Uint32>)
    ensures Faithful(fmt, ws) <==> Parses(fmt, ws) && Reparsed(fmt, ws) == ws
  {
    if Parses(fmt, ws) && Reparsed(fmt, ws) == ws {
      forall i | 0 <= i < |ws|
        ensures fmt.parse(fmt.show(ws[i])) == Some(ws[i])
      {
        assert Reparsed(fmt, ws)[i] == ws[i];
      }
    }
  }

  lemma WholeWhenDivisible(k: Kind, m: Mesh)
    ensures |Whole(k, m)| == |Get(m, k)| <==> |Get(m, k)| % Arity(k) == 0
    ensures |Whole(k, m)| == |Get(m, k)| ==> Whole(k, m) == Get(m, k)
  {
  }

  lemma BackIsSame(fmt: FloatFormat, m: Mesh)
    ensures AllParse(fmt, m) && Back(fmt, m) == m <==> RoundTrips(fmt, m)
  {
    hide Parses, Faithful, Whole;
    WholeWhenDivisible(Position, m);
    WholeWhenDivisible(Uv, m);
    WholeWhenDivisible(Normal, m);
    FaithfulIsReparsed(fmt, m.positions);
    FaithfulIsReparsed(fmt, m.uvs);
    FaithfulIsReparsed(fmt, m.normals);
    assert |m.corners| % 3 == 0 <==> m.corners[..3 * (|m.corners| / 3)] == m.corners;
  }

  /** Fields that are left out, or left off, stand for no index. */
  lemma CornersMayBeShort(position: int, uv: int, normal: int)
    ensures ParseCorner(PrintInt(position + 1)) == Some(Corner(position, -1, -1))
    ensures ParseCorner(PrintInt(position + 1) + "/" + PrintInt(uv + 1)) == Some(Corner(position, uv, -1))
    ensures ParseCorner(PrintInt(position + 1) + "//" + PrintInt(normal + 1)) == Some(Corner(position, -1, normal))
  {
    var p, u, n := PrintInt(position + 1), PrintInt(uv + 1), PrintInt(normal + 1);
    FieldRead(position);
    FieldRead(uv);
    FieldRead(normal);
    PrintedCharacters(position + 1);
    PrintedCharacters(uv + 1);
    PrintedCharacters(normal + 1);
    hide PrintInt, SplitOn, ParseField;
    SplitOnNone(p, '/');
    assert p + "/" + u == p + ['/'] + u;
    SplitOnFirst(p, '/', u);
    SplitOnNone(u, '/');
    SplitOnTwo(p, "", n, '/');
    assert p + ['/'] + "" + ['/'] + n == p + "//" + n;
    assert ParseField("") == Some(-1) by { EmptyField(); }
    assert ([p] + ["", ""])[..3] == [p, "", ""];
    assert ([p, u] + ["", ""])[..3] == [p, u, ""];
    assert ([p, "", n] + ["", ""])[..3] == [p, "", n];
  }

  lemma EmptyField()
    ensures ParseField("") == Some(-1)
  {
  }

  /** The text of one triangle: indices count from one, and an absent one is zero. */
  lemma OneTriangle(fmt: FloatFormat, x: Uint32, y: Uint32, z: Uint32)
    ensures var c := Corner(0, -1, 1);
            var a, b, d := fmt.show(x), fmt.show(y), fmt.show(z);
            Print(fmt, Mesh([x, y, z], [x, y], [z, y, x], [c, c, c]))
            == HEADING + ["v " + a + " " + b + " " + d] + ["vt " + a + " " + b] + ["vn " + d + " " + b + " " + a]
               + ["f " + "1/0/2" + " " + "1/0/2" + " " + "1/0/2"]
  {
    var c := Corner(0, -1, 1);
    var a, b, d := fmt.show(x), fmt.show(y), fmt.show(z);
    hide VectorLines, FaceLines, HEADING, Join;
    OneVector(fmt, Position, [x, y, z]);
    OneVector(fmt, Uv, [x, y]);
    OneVector(fmt, Normal, [z, y, x]);
    FirstCorner();
    OneFace(c, "1/0/2");
    hide CornerText;
    assert "f" + " " == "f ";
    JoinFour("v", a, b, d);
    JoinThree("vt", a, b);
    JoinFour("vn", d, b, a);
    assert Shown(fmt, [x, y, z]) == [a, b, d] && Shown(fmt, [x, y]) == [a, b] && Shown(fmt, [z, y, x]) == [d, b, a];
    assert ["v"] + [a, b, d] == ["v", a, b, d] && ["vt"] + [a, b] == ["vt", a, b];
    assert ["vn"] + [d, b, a] == ["vn", d, b, a];
    assert "v" + " " == "v " && "vt" + " " == "vt " && "vn" + " " == "vn ";
    assert Tag(Position) == "v" && Tag(Uv) == "vt" && Tag(Normal) == "vn";
    hide Shown, Tag;
    var m := Mesh([x, y, z], [x, y], [z, y, x], [c, c, c]);
    assert VectorLines(fmt, Position, m.positions) == ["v " + a + " " + b + " " + d];
    assert VectorLines(fmt, Uv, m.uvs) == ["vt " + a + " " + b];
    assert VectorLines(fmt, Normal, m.normals) == ["vn " + d + " " + b + " " + a];
  }

  lemma OneVector(fmt: FloatFormat, k: Kind, ws: seq<Uint32>)
    requires |ws| == Arity(k)
    ensures VectorLines(fmt, k, ws) == [Join([Tag(k)] + Shown(fmt, ws))]
  {
    assert k == Uv || Arity(k) == 3;
    assert Vector(k, ws, 0) == ws;
    hide Join, Shown;
  }

  lemma OneFace(c: Corner, text: string)
    requires CornerText(c) == text
    ensures FaceLines([c, c, c]) == ["f" + " " + text + " " + text + " " + text]
  {
    assert FaceLines([c, c, c])[0] == Join(FaceTokens([c, c, c], 0));
    hide CornerText;
    JoinFour("f", text, text, text);
  }

  lemma FirstCorner()
    ensures CornerText(Corner(0, -1, 1)) == "1/0/2"
  {
    assert PrintInt(1) == "1" && PrintInt(0) == "0" && PrintInt(2) == "2";
  }

  lemma JoinThree(a: string, b: string, c: string)
    ensures Join([a, b, c]) == a + " " + b + " " + c
  {
    assert [a, b, c][1..] == [b, c] && [b, c][1..] == [c];
    assert Join([c]) == c && Join([b, c]) == b + " " + Join([c]);
    assert Join([a, b, c]) == a + " " + Join([b, c]);
    assert a + " " + (b + " " + c) == a + " " + b + " " + c;
  }

  lemma JoinFour(a: string, b: string, c: string, d: string)
    ensures Join([a, b, c, d]) == a + " " + b + " " + c + " " + d
  {
    assert [a, b, c, d][1..] == [b, c, d];
    assert Join([a, b, c, d]) == a + " " + Join([b, c, d]);
    JoinThree(b, c, d);
    assert a + " " + (b + " " + c + " " + d) == a + " " + b + " " + c + " " + d;
  }

  /**
    binobj2obj then obj2binobj gives back the same bytes exactly when the counts come in whole vectors and whole
    triangles and every float survives its own printing. Absent indices (-1) are covered.
   */
  lemma RoundTripExactly(fmt: FloatFormat, d: Bytes, m: Mesh)
    requires PrintsTokens(fmt) && Decode(d) == Some(m)
    ensures Obj2Binobj(fmt, Print(fmt, m)) == Some(d) <==> RoundTrips(fmt, m)
  {
    hide Read, Print, Decode, Encode, Packable, Back, AllParse, RoundTrips;
    PrintedRead(fmt, m);
    BackIsSame(fmt, m);
    DecodeExactly(d, m);
    if AllParse(fmt, m) {
      DecodeExactly(d, Back(fmt, m));
    }
  }

  /**
    Files that change: a float that is left over is lost whatever it is, and so is a whole vector of one that does not
    survive its own printing.
   */
  lemma FilesThatChange(fmt: FloatFormat, w: Uint32)
    requires PrintsTokens(fmt)
    ensures var m := Mesh([w], [], [], []);
            Decode(Encode(m)) == Some(m) && Obj2Binobj(fmt, Print(fmt, m)) != Some(Encode(m))
    ensures var m := Mesh([w, w, w], [], [], []);
            && Decode(Encode(m)) == Some(m)
            && (Obj2Binobj(fmt, Print(fmt, m)) == Some(Encode(m)) <==> fmt.parse(fmt.show(w)) == Some(w))
  {
    hide Encode, Decode, Print, Obj2Binobj, PrintsTokens;
    var one, three := Mesh([w], [], [], []), Mesh([w, w, w], [], [], []);
    DecodeExactly(Encode(one), one);
    RoundTripExactly(fmt, Encode(one), one);
    DecodeExactly(Encode(three), three);
    RoundTripExactly(fmt, Encode(three), three);
    assert three.positions[0] == w;
  }

  // ---------- binobj2obj.py ----------

  class Reader {
    const data: Bytes
    var offset: int

    constructor (data: Bytes)
      ensures this.data == data && offset == 0
    {
      this.data := data;
      offset := 0;
    }

    method ReadInt() returns (r: Option<int>)
      requires offset >= 0
      modifies this
      ensures r == (if old(offset) + 4 > |data| then None else Some(FromWord(WordAt(data, old(offset)))))
      ensures r.Some? ==> offset == old(offset) + 4
    {
      if offset + 4 > |data| {
        return None;
      }
      r := Some(FromWord(WordAt(data, offset)));
      offset := offset + 4;
    }

    method ReadFloats(count: int) returns (r: Option<seq<Uint32>>)
      requires offset >= 0
      modifies this
      ensures r == if count < 0 || old(offset) + 4 * count > |data| then None
                   else Some(WordsAt(data, old(offset), count))
      ensures r.Some? ==> offset == old(offset) + 4 * count
    {
      if count < 0 || offset + 4 * count > |data| {
        return None;
      }
      var values: seq<Uint32> := [];
      for i := 0 to count
        invariant values == WordsAt(data, offset, i)
      {
        values := values + [WordAt(data, offset + 4 * i)];
      }
      r := Some(values);
      offset := offset + 4 * count;
    }

    method ReadFloatBlock() returns (r: Option<seq<Uint32>>)
      requires offset >= 0
      modifies this
      ensures r.Some? <==> FloatsAt(data, old(offset)).Some?
      ensures r.Some? ==> FloatsAt(data, old(offset)) == Some((r.value, offset))
    {
      var count := ReadInt();
      if count.None? {
        return None;
      }
      r := ReadFloats(count.value);
    }

    method ReadCorners() returns (r: Option<seq<Corner>>)
      requires offset >= 0
      modifies this
      ensures r.Some? <==> CornersAt(data, old(offset)).Some?
      ensures r.Some? ==> CornersAt(data, old(offset)) == Some((r.value, offset))
    {
      hide WordAt;
      var count := ReadInt();
      if count.None? {
        return None;
      }
      var corners: seq<Corner> := [];
      var n := count.value;
      if n > 0 && offset + 12 * n > |data| {
        return None;
      }
      var i := 0;
      while i < n
        invariant 0 <= i && (n >= 0 ==> i <= n) && (n < 0 ==> i == 0)
        invariant |corners| == i
        invariant forall k :: 0 <= k < i ==> corners[k] == CornerOf(WordsAt(data, offset, 3 * n), k)
      {
        var at := offset + 12 * i;
        corners := corners + [
          Corner(FromWord(WordAt(data, at)), FromWord(WordAt(data, at + 4)), FromWord(WordAt(data, at + 8)))];
        i := i + 1;
      }
      if n >= 0 {
        assert corners == CornersOf(WordsAt(data, offset, 3 * n));
      }
      offset := offset + 12 * n;
      r := Some(corners);
    }
  }

  /** The reading half: None is an exception or the format mismatch message. */
  method ReadBinobj(data: Bytes) returns (r: Option<Mesh>)
    ensures r == Decode(data)
  {
    hide FloatsAt, CornersAt;
    var reader := new Reader(data);
    var positions := reader.ReadFloatBlock();
    if positions.None? {
      return None;
    }
    var uvs := reader.ReadFloatBlock();
    if uvs.None? {
      return None;
    }
    var normals := reader.ReadFloatBlock();
    if normals.None? {
      return None;
    }
    var corners := reader.ReadCorners();
    if corners.None? || reader.offset != |data| {
      return None;
    }
    r := Some(Mesh(positions.value, uvs.value, normals.value, corners.value));
  }

  method PrintVectors(fmt: FloatFormat, k: Kind, ws: seq<Uint32>) returns (lines: seq<string>)
    ensures lines == VectorLines(fmt, k, ws)
  {
    lines := [];
    for i := 0 to |ws| / Arity(k)
      invariant lines == VectorLines(fmt, k, ws)[..i]
    {
      lines := lines + [Join(VectorTokens(fmt, k, ws, i))];
    }
  }

  method PrintFaces(cs: seq<Corner>) returns (lines: seq<string>)
    ensures lines == FaceLines(cs)
  {
    hide FaceTokens, Join;
    lines := [];
    for t := 0 to |cs| / 3
      invariant lines == FaceLines(cs)[..t]
    {
      lines := lines + [Join(FaceTokens(cs, t))];
    }
  }

  /** The printing half. */
  method PrintObj(fmt: FloatFormat, m: Mesh) returns (lines: seq<string>)
    ensures lines == Print(fmt, m)
  {
    hide HEADING, VectorLines, FaceLines;
    var v := PrintVectors(fmt, Position, m.positions);
    var vt := PrintVectors(fmt, Uv, m.uvs);
    var vn := PrintVectors(fmt, Normal, m.normals);
    var f := PrintFaces(m.corners);
    lines := HEADING + v + vt + vn + f;
  }

  // ---------- obj2binobj.py ----------

  method Triangulate(face: seq<Corner>) returns (corners: seq<Corner>)
    ensures corners == Fan(face)
  {
    corners := [];
    var i := 1;
    while i < |face| - 1
      invariant 1 <= i && (|face| >= 2 ==> i <= |face| - 1)
      invariant |face| < 2 ==> i == 1
      invariant |corners| == 3 * (i - 1) <= |Fan(face)| && corners == Fan(face)[..3 * (i - 1)]
    {
      corners := corners + [face[0], face[i], face[i + 1]];
      FanTriangles(face, i - 1);
      i := i + 1;
    }
  }

  method ReadFace(vertices: seq<string>) returns (r: Option<seq<Corner>>)
    ensures r == ParseFace(vertices)
  {
    hide ParseCorner;
    var face: seq<Corner> := [];
    for i := 0 to |vertices|
      invariant ParseFace(vertices[..i]) == Some(face)
    {
      assert vertices[..i + 1][..i] == vertices[..i];
      var corner := ParseCorner(vertices[i]);
      if corner.None? {
        ParseFacePrefix(vertices, i + 1);
        return None;
      }
      face := face + [corner.value];
    }
    assert vertices[..|vertices|] == vertices;
    r := Some(face);
  }

  lemma {:induction false} ParseFacePrefix(vertices: seq<string>, n: nat)
    requires n <= |vertices| && ParseFace(vertices[..n]).None?
    ensures ParseFace(vertices).None?
    decreases |vertices|
  {
    if n < |vertices| {
      assert vertices[..|vertices| - 1][..n] == vertices[..n];
      ParseFacePrefix(vertices[..|vertices| - 1], n);
    } else {
      assert vertices[..n] == vertices;
    }
  }

  /** The reading half: four lists grown line by line. */
  method ReadObj(fmt: FloatFormat, lines: seq<string>) returns (r: Option<Mesh>)
    ensures r == Read(fmt, EMPTY, lines)
  {
    hide Split, ParseVector, ParseFace, Fan, KindOf;
    var m := EMPTY;
    for i := 0 to |lines|
      invariant Read(fmt, EMPTY, lines[..i]) == Some(m)
    {
      assert lines[..i + 1][..i] == lines[..i];
      var parts := Split(lines[i]);
      if |parts| == 0 || (|parts[0]| > 0 && parts[0][0] == '#') {
        continue;
      }
      var kind := KindOf(parts[0]);
      if kind.Some? {
        var ws := if |parts| <= Arity(kind.value) then None else ParseVector(fmt, parts, Arity(kind.value));
        if ws.None? {
          ReadPrefix(fmt, EMPTY, lines, i + 1);
          return None;
        }
        m := Add(m, kind.value, ws.value);
      } else if parts[0] == "f" {
        var face := ReadFace(parts[1..]);
        if face.None? {
          ReadPrefix(fmt, EMPTY, lines, i + 1);
          return None;
        }
        var triangles := Triangulate(face.value);
        m := m.(corners := m.corners + triangles);
      }
    }
    assert lines[..|lines|] == lines;
    r := Some(m);
  }

  lemma {:induction false} ReadPrefix(fmt: FloatFormat, m: Mesh, lines: seq<string>, n: nat)
    requires n <= |lines| && Read(fmt, m, lines[..n]).None?
    ensures Read(fmt, m, lines).None?
  {
    ReadAppend(fmt, m, lines[..n], lines[n..]);
    assert lines == lines[..n] + lines[n..];
  }

  lemma WordBytesMore(a: seq<Uint32>, b: seq<Uint32>)
    ensures WordBytes(a + b) == WordBytes(a) + WordBytes(b)
  {
    hide Digit;
    forall k | 0 <= k < 4 * |a + b|
      ensures WordBytes(a + b)[k] == (WordBytes(a) + WordBytes(b))[k]
    {
      if k >= 4 * |a| {
        assert k / 4 == |a| + (k - 4 * |a|) / 4 && k % 4 == (k - 4 * |a|) % 4;
      }
    }
  }

  lemma CornerWordsMore(cs: seq<Corner>, c: Corner)
    requires AreCorners(cs) && IsCorner(c)
    ensures AreCorners(cs + [c])
    ensures CornerWords(cs + [c]) == CornerWords(cs) + [ToWord(c.position), ToWord(c.uv), ToWord(c.normal)]
  {
    hide ToWord;
    assert forall i :: 0 <= i < |cs| ==> (cs + [c])[i] == cs[i];
  }

  /** The writing half: the blocks in sequence; None is a struct.error. */
  method WriteBinobj(m: Mesh) returns (r: Option<Bytes>)
    ensures r.Some? <==> Packable(m)
    ensures r.Some? ==> r.value == Encode(m)
  {
    hide WordBytes, CornerWords, ToWord;
    if |m.positions| >= 0x8000_0000 || |m.uvs| >= 0x8000_0000 || |m.normals| >= 0x8000_0000
       || |m.corners| >= 0x8000_0000 {
      return None;
    }
    var out := FloatBlock(m.positions) + FloatBlock(m.uvs) + FloatBlock(m.normals);
    var tail := WordBytes([|m.corners|]);
    assert CornerWords([]) == [] && WordBytes([]) == [];
    for i := 0 to |m.corners|
      invariant AreCorners(m.corners[..i])
      invariant tail == WordBytes([|m.corners|]) + WordBytes(CornerWords(m.corners[..i]))
    {
      var c := m.corners[i];
      if !IsCorner(c) {
        return None;
      }
      var words := [ToWord(c.position), ToWord(c.uv), ToWord(c.normal)];
      CornerWordsMore(m.corners[..i], c);
      WordBytesMore(CornerWords(m.corners[..i]), words);
      assert m.corners[..i + 1] == m.corners[..i] + [c];
      tail := tail + WordBytes(words);
    }
    assert m.corners[..|m.corners|] == m.corners;
    r := Some(out + tail);
  }
}
