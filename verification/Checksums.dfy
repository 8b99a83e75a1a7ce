/**
The checksum list of a release: the packager prints it, the stager scans it line by line and
compares it with what it extracted.

Acceptance means that every extracted file but the list itself is listed exactly once with its
own digest and nothing else is listed, although the stager only ever counts its matches.
*/
module Checksums {
  type Files = map<string, string>  // the digest of each file

  const LIST := "SHA256SUMS"
  const DIGEST := 64
  const MAX_LIST := 0x10_0000
  const MAX_LINE := 0x1_0000

  // ---------------------------------------------------------------- the printer

  /** The packager refuses a tree with any other name. */
  predicate Packable(name: string) {
    name != "" && forall c | c in name :: c != '\n' && c != '\r' && c != '\t' && c != '\\'
  }

  predicate IsDigest(digest: string) {
    |digest| == 64 && forall c | c in digest :: '0' <= c <= '9' || 'a' <= c <= 'f'
  }

  predicate Digested(files: Files) {
    forall name | name in files :: IsDigest(files[name])
  }

  function Line(name: string, digest: string): string {
    digest + "  " + name
  }

  function Printed(order: seq<string>, files: Files): string
    requires forall name | name in order :: name in files
  {
    if order == [] then "" else Line(order[0], files[order[0]]) + "\n" + Printed(order[1..], files)
  }

  method Print(order: seq<string>, files: Files) returns (text: string)
    requires forall name | name in order :: name in files
    ensures text == Printed(order, files)
  {
    text := "";
    for i := 0 to |order|
      invariant text + Printed(order[i..], files) == Printed(order, files)
    {
      var name := order[i];
      assert order[i..][0] == name && order[i..][1..] == order[i + 1..];
      var line := Line(name, files[name]) + "\n";
      assert text + (line + Printed(order[i + 1..], files)) == (text + line) + Printed(order[i + 1..], files);
      text := text + line;
    }
    assert order[|order|..] == [] && text + "" == text;
  }

  // ---------------------------------------------------------------- the scanner

  function LineEnd(text: string): (n: nat)
    ensures n <= |text| && (n < |text| ==> text[n] == '\n') && forall i | 0 <= i < n :: text[i] != '\n'
  {
    if text == "" || text[0] == '\n' then 0 else 1 + LineEnd(text[1..])
  }

  function WithoutReturn(line: string): string {
    if line != "" && line[|line| - 1] == '\r' then line[..|line| - 1] else line
  }

  /** The lines of a text; a line too long for the scanner ends the scan with an error. */
  function Scanned(text: string): (r: (seq<string>, bool))
    decreases |text|
  {
    if text == "" then ([], true)
    else
      var n := LineEnd(text);
      if n >= MAX_LINE then ([], false)
      else
        var rest := Scanned(if n == |text| then "" else text[n + 1..]);
        ([WithoutReturn(text[..n])] + rest.0, rest.1)
  }

  // ---------------------------------------------------------------- what acceptance means

  function NameOf(line: string): string {
    if |line| >= 66 then line[66..] else ""
  }

  predicate Named(line: string, files: Files) {
    && |line| >= 67 && line[64..66] == "  "
    && NameOf(line) != "SHA256SUMS" && NameOf(line) in files && files[NameOf(line)] == line[..64]
  }

  predicate AllNamed(lines: seq<string>, files: Files) {
    forall i | 0 <= i < |lines| :: Named(lines[i], files)
  }

  predicate Distinct(lines: seq<string>) {
    forall i, j | 0 <= i < j < |lines| :: NameOf(lines[i]) != NameOf(lines[j])
  }

  function NamesOf(lines: seq<string>): set<string> {
    set i | 0 <= i < |lines| :: NameOf(lines[i])
  }

  /** Every extracted file but the list itself has exactly one line, with its digest, and every line is such a line. */
  ghost predicate Lists(lines: seq<string>, files: Files) {
    && AllNamed(lines, files) && Distinct(lines)
    && forall name | name in files && name != LIST :: Line(name, files[name]) in lines
  }

  ghost predicate Acceptable(text: string, files: Files) {
    LIST in files && |text| <= 1_048_576 && Scanned(text).1 && Lists(Scanned(text).0, files)
  }

  lemma NamedLine(line: string, files: Files)
    requires Named(line, files)
    ensures line == Line(NameOf(line), files[NameOf(line)])
  {
    assert line == line[..DIGEST] + line[DIGEST..DIGEST + 2] + line[DIGEST + 2..];
  }

  lemma LineName(name: string, digest: string)
    requires |digest| == DIGEST
    ensures NameOf(Line(name, digest)) == name && Line(name, digest)[..DIGEST] == digest
              && Line(name, digest)[DIGEST..DIGEST + 2] == "  "
  {
  }

  lemma OneMoreName(lines: seq<string>)
    requires lines != []
    ensures NamesOf(lines) == NamesOf(lines[..|lines| - 1]) + {NameOf(lines[|lines| - 1])}
  {
    var shorter := lines[..|lines| - 1];
    forall name | name in NamesOf(lines) ensures name in NamesOf(shorter) + {NameOf(lines[|lines| - 1])} {
      var i :| 0 <= i < |lines| && NameOf(lines[i]) == name;
      if i < |shorter| { assert shorter[i] == lines[i]; }
    }
    forall name | name in NamesOf(shorter) ensures name in NamesOf(lines) {
      var i :| 0 <= i < |shorter| && NameOf(shorter[i]) == name;
      assert lines[i] == shorter[i];
    }
  }

  lemma SubsetOfSameSize(a: set<string>, b: set<string>)
    requires a <= b && |a| == |b|
    ensures a == b
  {
    assert b == a + (b - a) && |b| == |a| + |b - a|;
  }

  lemma NamesAreOthers(lines: seq<string>, files: Files)
    requires AllNamed(lines, files)
    ensures NamesOf(lines) <= files.Keys - {LIST}
  {
    forall name | name in NamesOf(lines) ensures name in files.Keys - {LIST} {
      var i :| 0 <= i < |lines| && NameOf(lines[i]) == name;
      assert Named(lines[i], files);
    }
  }

  lemma NamedIsListed(lines: seq<string>, files: Files, name: string)
    requires AllNamed(lines, files) && name in NamesOf(lines)
    ensures name in files && Line(name, files[name]) in lines
  {
    var i :| 0 <= i < |lines| && NameOf(lines[i]) == name;
    assert Named(lines[i], files);
    NamedLine(lines[i], files);
  }

  /** Counting is enough: as many distinct matches as there are other files means that every other file matched. */
  lemma CountingIsEnough(lines: seq<string>, files: Files)
    requires LIST in files && Digested(files) && AllNamed(lines, files) && Distinct(lines)
    ensures |NamesOf(lines)| == |files| - 1 <==> Lists(lines, files)
  {
    hide Named, NamesOf, Line, Digested;
    var others := files.Keys - {LIST};
    assert |others| == |files| - 1 by { assert files.Keys == others + {LIST} && |files.Keys| == |files|; }
    NamesAreOthers(lines, files);
    if |NamesOf(lines)| == |others| {
      SubsetOfSameSize(NamesOf(lines), others);
      forall name | name in files
          && name != LIST ensures Line(name, files[name]) in lines { NamedIsListed(lines, files, name); }
    }
    if Lists(lines, files) {
      forall name | name in others ensures name in NamesOf(lines) { ListedName(lines, files, name); }
      assert NamesOf(lines) == others;
    }
  }

  lemma ListedName(lines: seq<string>, files: Files, name: string)
    requires Lists(lines, files) && Digested(files) && name in files && name != LIST
    ensures name in NamesOf(lines)
  {
    var i :| 0 <= i < |lines| && lines[i] == Line(name, files[name]);
    assert IsDigest(files[name]);
    LineName(name, files[name]);
  }

  /** The stager's pass over the list: it accepts exactly when the list lists exactly the other files. */
  method Check(text: string, files: Files) returns (ok: bool)
    requires Digested(files)
    ensures ok <==> Acceptable(text, files)
  {
    hide Scanned;
    if LIST !in files || |text| > MAX_LIST { return false; }
    var (lines, readable) := Scanned(text);
    var matched: set<string> := {};
    for i := 0 to |lines|
      invariant AllNamed(lines[..i], files) && Distinct(lines[..i]) && matched == NamesOf(lines[..i])
    {
      assert lines[..i + 1][..i] == lines[..i] && lines[..i + 1][i] == lines[i];
      var line := lines[i];
      if |line| < DIGEST + 3 || line[DIGEST..DIGEST + 2] != "  " { return false; }
      var name := line[DIGEST + 2..];
      if name == LIST || name !in files || files[name] != line[..DIGEST] { return false; }
      if name in matched {
        Repeated(lines, i);
        return false;
      }
      OneMoreName(lines[..i + 1]);
      StillDistinct(lines, i);
      matched := matched + {name};
    }
    assert lines[..|lines|] == lines;
    CountingIsEnough(lines, files);
    ok := readable && |matched| == |files| - 1;
  }

  lemma Repeated(lines: seq<string>, i: nat)
    requires i < |lines| && NameOf(lines[i]) in NamesOf(lines[..i])
    ensures !Distinct(lines)
  {
    var j :| 0 <= j < i && NameOf(lines[..i][j]) == NameOf(lines[i]);
    assert lines[..i][j] == lines[j];
  }

  lemma StillDistinct(lines: seq<string>, i: nat)
    requires i < |lines| && Distinct(lines[..i]) && NameOf(lines[i]) !in NamesOf(lines[..i])
    ensures Distinct(lines[..i + 1])
  {
    var longer := lines[..i + 1];
    forall j, k | 0 <= j < k < |longer| ensures NameOf(longer[j]) != NameOf(longer[k]) {
      assert longer[j] == lines[..i][j];
      if k < i { assert longer[k] == lines[..i][k]; }
    }
  }

  // ---------------------------------------------------------------- printing and scanning

  lemma {:induction false} EndOfLine(line: string, rest: string)
    requires forall i | 0 <= i < |line| :: line[i] != '\n'
    ensures LineEnd(line + "\n" + rest) == |line|
  {
    var text := line + "\n" + rest;
    if line == "" {
      assert text[0] == '\n';
    } else {
      assert text[1..] == line[1..] + "\n" + rest && text[0] == line[0];
      EndOfLine(line[1..], rest);
    }
  }

  function LinesOf(order: seq<string>, files: Files): seq<string>
    requires forall name | name in order :: name in files
  {
    if order == [] then [] else [Line(order[0], files[order[0]])] + LinesOf(order[1..], files)
  }

  lemma LineIsPlain(name: string, digest: string)
    requires Packable(name) && IsDigest(digest)
    ensures var line := Line(name, digest); line != "" && forall i | 0 <= i < |line| ::
              line[i] != '\n' && line[i] != '\r'
  {
    var line := Line(name, digest);
    forall i | 0 <= i < |line| ensures line[i] != '\n' && line[i] != '\r' {
      if i < DIGEST { assert line[i] in digest; } else if i >= DIGEST + 2 { assert line[i] in name; }
    }
  }

  lemma OneLineScanned(line: string, rest: string)
    requires line != "" && |line| < MAX_LINE && forall i | 0 <= i < |line| :: line[i] != '\n' && line[i] != '\r'
    ensures Scanned(line + "\n" + rest) == ([line] + Scanned(rest).0, Scanned(rest).1)
  {
    var text := line + "\n" + rest;
    EndOfLine(line, rest);
    assert text[..|line|] == line && text[|line| + 1..] == rest;
    assert WithoutReturn(line) == line;
    hide LineEnd;
  }

  /** Scanning what was printed gives back its lines. */
  lemma {:induction false} ScanOfPrint(order: seq<string>, files: Files)
    requires forall name | name in order ::
              name in files && Packable(name) && IsDigest(files[name]) && DIGEST + 2 + |name| < MAX_LINE
    ensures Scanned(Printed(order, files)) == (LinesOf(order, files), true)
  {
    hide Scanned, IsDigest, Packable;
    if order != [] {
      var line, rest := Line(order[0], files[order[0]]), Printed(order[1..], files);
      LineIsPlain(order[0], files[order[0]]);
      assert |line| < MAX_LINE by { assert IsDigest(files[order[0]]); DigestLength(files[order[0]]); }
      OneLineScanned(line, rest);
      ScanOfPrint(order[1..], files);
    } else {
      NothingScanned();
    }
  }

  lemma DigestLength(digest: string)
    requires IsDigest(digest)
    ensures |digest| == DIGEST
  {
  }

  lemma NothingScanned()
    ensures Scanned("") == ([], true)
  {
  }

  lemma {:induction false} LinesAt(order: seq<string>, files: Files, i: nat)
    requires forall name | name in order :: name in files
    requires i < |order|
    ensures |LinesOf(order, files)| == |order| && LinesOf(order, files)[i] == Line(order[i], files[order[i]])
  {
    if i > 0 {
      LinesAt(order[1..], files, i - 1);
    } else {
      LinesLength(order, files);
    }
  }

  lemma {:induction false} LinesLength(order: seq<string>, files: Files)
    requires forall name | name in order :: name in files
    ensures |LinesOf(order, files)| == |order|
  {
    if order != [] { LinesLength(order[1..], files); }
  }

  /** An order of the files to list: each of them once, and the list itself not at all. */
  ghost predicate OrderOf(order: seq<string>, files: Files) {
    && (forall name :: name in order <==> name in files && name != LIST)
    && forall i, j | 0 <= i < j < |order| :: order[i] != order[j]
  }

  lemma PrintedLine(order: seq<string>, files: Files, i: nat)
    requires Digested(files) && OrderOf(order, files) && i < |order| && Packable(order[i])
    requires |LinesOf(order, files)| == |order|
    ensures var line := LinesOf(order, files)[i];
            Named(line, files) && NameOf(line) == order[i] && line == Line(order[i], files[order[i]])
  {
    hide LinesOf;
    LinesAt(order, files, i);
    assert order[i] in order && IsDigest(files[order[i]]);
    LineName(order[i], files[order[i]]);
  }

  /** What the packager prints the stager accepts, as long as it keeps within the stager's limits. */
  lemma PrintedIsAcceptable(order: seq<string>, files: Files)
    requires LIST in files && Digested(files) && OrderOf(order, files)
    requires forall name | name in order :: Packable(name) && DIGEST + 2 + |name| < MAX_LINE
    requires |Printed(order, files)| <= MAX_LIST
    ensures Acceptable(Printed(order, files), files)
  {
    hide Scanned, Printed, LinesOf, Named, NameOf, Line, IsDigest, Packable;
    ScanOfPrint(order, files);
    var lines := LinesOf(order, files);
    LinesLength(order, files);
    forall i | 0 <= i < |lines|
      ensures Named(lines[i], files) && NameOf(lines[i]) == order[i] && lines[i] == Line(order[i], files[order[i]])
    {
      PrintedLine(order, files, i);
    }
    forall name | name in files && name != LIST ensures Line(name, files[name]) in lines {
      var i :| 0 <= i < |order| && order[i] == name;
      assert lines[i] == Line(name, files[name]);
    }
  }

  /** An accepted list tells everything: two sets of files it is accepted for agree on every file but the list. */
  lemma AcceptedTellsAll(text: string, a: Files, b: Files)
    requires Digested(a) && Digested(b) && Acceptable(text, a) && Acceptable(text, b)
    ensures a - {LIST} == b - {LIST}
  {
    var lines := Scanned(text).0;
    hide Scanned;
    forall name | name in a && name != LIST ensures name in b && b[name] == a[name] { ToldBy(lines, a, b, name); }
    forall name | name in b && name != LIST ensures name in a && a[name] == b[name] { ToldBy(lines, b, a, name); }
  }

  lemma ToldBy(lines: seq<string>, a: Files, b: Files, name: string)
    requires Digested(a) && Digested(b) && Lists(lines, a) && Lists(lines, b) && name in a && name != LIST
    ensures name in b && b[name] == a[name]
  {
    var i :| 0 <= i < |lines| && lines[i] == Line(name, a[name]);
    assert IsDigest(a[name]) && Named(lines[i], b);
    LineName(name, a[name]);
  }
}
