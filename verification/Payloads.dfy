/** internal/sign/sign.go: the four texts that peers sign, and how far a text determines what was signed. */
module Payloads {
  import opened Text

  const EXPECTED := "muninn/expected/v1\n"
  const REPORTED := "muninn/reported/v1\n"
  const CONFIRMED := "muninn/confirmed/v1\n"
  const READ := "muninn/read/v1\n"

  /** The lines shared by the chunk payloads. */
  function ChunkLines(fileId: string, index: int, hash: string): string {
    fileId + ['\n'] + Itoa(index) + ['\n'] + hash
  }

  function ExpectedPayload(fileId: string, index: int, hash: string): string {
    EXPECTED + ChunkLines(fileId, index, hash)
  }

  function ReportedPayload(fileId: string, index: int, hash: string, source: string): string {
    REPORTED + (ChunkLines(fileId, index, hash) + ['\n'] + source)
  }

  function ConfirmedPayload(fileId: string, index: int, hash: string): string {
    CONFIRMED + ChunkLines(fileId, index, hash)
  }

  function ReadPayload(fileId: string): string {
    READ + fileId
  }

  lemma SamePrefix(p: string, a: string, b: string)
    requires p + a == p + b
    ensures a == b
  {
    assert a == (p + a)[|p|..] && b == (p + b)[|p|..];
  }

  /** File ids may contain newlines: the last two lines are the index and the hash. */
  lemma ChunkLinesDetermine(f: string, i: int, h: string, f': string, i': int, h': string)
    requires '\n' !in h && '\n' !in h'
    requires ChunkLines(f, i, h) == ChunkLines(f', i', h')
    ensures f == f' && i == i' && h == h'
  {
    RightSplit(f + ['\n'] + Itoa(i), h, f' + ['\n'] + Itoa(i'), h', '\n');
    forall n: int
      ensures '\n' !in Itoa(n)
    {
      if '\n' in Itoa(n) { ItoaAlphabet(n, '\n'); }
    }
    RightSplit(f, Itoa(i), f', Itoa(i'), '\n');
    ItoaInjective(i, i');
  }

  lemma ExpectedDetermines(f: string, i: int, h: string, f': string, i': int, h': string)
    requires '\n' !in h && '\n' !in h'
    ensures ExpectedPayload(f, i, h) == ExpectedPayload(f', i', h') <==> f == f' && i == i' && h == h'
  {
    if ExpectedPayload(f, i, h) == ExpectedPayload(f', i', h') {
      SamePrefix(EXPECTED, ChunkLines(f, i, h), ChunkLines(f', i', h'));
      ChunkLinesDetermine(f, i, h, f', i', h');
    }
  }

  lemma ConfirmedDetermines(f: string, i: int, h: string, f': string, i': int, h': string)
    requires '\n' !in h && '\n' !in h'
    ensures ConfirmedPayload(f, i, h) == ConfirmedPayload(f', i', h') <==> f == f' && i == i' && h == h'
  {
    if ConfirmedPayload(f, i, h) == ConfirmedPayload(f', i', h') {
      SamePrefix(CONFIRMED, ChunkLines(f, i, h), ChunkLines(f', i', h'));
      ChunkLinesDetermine(f, i, h, f', i', h');
    }
  }

  lemma ReadDetermines(f: string, f': string)
    ensures ReadPayload(f) == ReadPayload(f') <==> f == f'
  {
    if ReadPayload(f) == ReadPayload(f') {
      SamePrefix(READ, f, f');
    }
  }

  /** When two texts end in `\n` plus different tails, the longer tail holds more newlines. */
  lemma LongerTailHasMoreNewlines(a: string, s: string, a': string, s': string)
    requires a + ['\n'] + s == a' + ['\n'] + s'
    requires |s| < |s'|
    ensures Count(s, '\n') < Count(s', '\n')
  {
    var text := a + ['\n'] + s;
    var k := |s'| - |s| - 1;
    assert s' == text[|a'| + 1..];
    assert s'[k] == text[|a|] == '\n';
    assert s'[k + 1..] == text[|a| + 1..] == s;
    assert s' == s'[..k] + (['\n'] + s);
    CountConcat(s'[..k], ['\n'] + s, '\n');
    CountConcat(['\n'], s, '\n');
  }

  /**
   * A reported payload does not always determine its fields. Among payloads with newline-free
   * hashes, two equal ones come from the same fields exactly when their source ids hold equally
   * many newlines; in particular newline-free source ids are always enough.
   */
  lemma ReportedDetermines(f: string, i: int, h: string, s: string, f': string, i': int, h': string, s': string)
    requires '\n' !in h && '\n' !in h'
    requires ReportedPayload(f, i, h, s) == ReportedPayload(f', i', h', s')
    ensures (f == f' && i == i' && h == h' && s == s') <==> Count(s, '\n') == Count(s', '\n')
    ensures '\n' !in s && '\n' !in s' ==> f == f' && i == i' && h == h' && s == s'
  {
    var a, a' := ChunkLines(f, i, h), ChunkLines(f', i', h');
    SamePrefix(REPORTED, a + ['\n'] + s, a' + ['\n'] + s');
    if |s| < |s'| {
      LongerTailHasMoreNewlines(a, s, a', s');
    } else if |s'| < |s| {
      LongerTailHasMoreNewlines(a', s', a, s);
    } else {
      var text := a + ['\n'] + s;
      assert s == text[|text| - |s|..] && s' == text[|text| - |s|..];
      assert a == text[..|text| - |s| - 1] && a' == text[..|text| - |s| - 1];
      ChunkLinesDetermine(f, i, h, f', i', h');
    }
    CountZero(s, '\n');
    CountZero(s', '\n');
  }

  /** Two different reports with valid hashes that are signed by the same text. */
  lemma ReportedAmbiguous(h: string)
    ensures ReportedPayload("f", 0, h, ("0\n" + h) + "\ns") == ReportedPayload("f\n0\n" + h, 0, h, "s")
  {
    var nl := ['\n'];
    var zero := Itoa(0);
    assert zero == "0";
    assert "f\n0\n" + h == "f" + nl + zero + nl + h;
    assert ("0\n" + h) + "\ns" == zero + nl + h + nl + "s";
    assert ("f" + nl + zero + nl + h) + nl + (zero + nl + h + nl + "s")
        == ("f" + nl + zero + nl + h) + nl + zero + nl + h + nl + "s";
  }

  /** A signature made for one purpose is never a signature of a payload of another kind. */
  lemma KindsNeverCoincide(f: string, i: int, h: string, s: string, f': string, i': int, h': string)
    ensures ExpectedPayload(f, i, h) != ReportedPayload(f', i', h', s)
    ensures ExpectedPayload(f, i, h) != ConfirmedPayload(f', i', h')
    ensures ExpectedPayload(f, i, h) != ReadPayload(f')
    ensures ReportedPayload(f, i, h, s) != ConfirmedPayload(f', i', h')
    ensures ReportedPayload(f, i, h, s) != ReadPayload(f')
    ensures ConfirmedPayload(f, i, h) != ReadPayload(f')
  {
    assert ExpectedPayload(f, i, h)[7] == 'e';
    assert ConfirmedPayload(f, i, h)[7] == 'c' && ConfirmedPayload(f', i', h')[7] == 'c';
    assert ReportedPayload(f, i, h, s)[7] == 'r' && ReportedPayload(f', i', h', s)[7] == 'r';
    assert ReadPayload(f')[7] == 'r';
    assert ReportedPayload(f, i, h, s)[9] == 'p' && ReadPayload(f')[9] == 'a';
  }

  lemma FlatLines(p: string, a: string, b: string, c: string)
    ensures p + (a + ['\n'] + b + ['\n'] + c) == p + a + "\n" + b + "\n" + c
  {
  }

  lemma FlatTail(p: string, a: string, d: string)
    ensures p + (a + ['\n'] + d) == (p + a) + "\n" + d
  {
  }

  /** The signed texts, written out. */
  lemma SignedTexts(f: string, i: int, h: string, s: string)
    ensures ExpectedPayload(f, i, h) == "muninn/expected/v1\n" + f + "\n" + Itoa(i) + "\n" + h
    ensures ReportedPayload(f, i, h, s) == "muninn/reported/v1\n" + f + "\n" + Itoa(i) + "\n" + h + "\n" + s
    ensures ConfirmedPayload(f, i, h) == "muninn/confirmed/v1\n" + f + "\n" + Itoa(i) + "\n" + h
    ensures ReadPayload(f) == "muninn/read/v1\n" + f
  {
    var n := Itoa(i);
    FlatLines("muninn/expected/v1\n", f, n, h);
    FlatLines("muninn/confirmed/v1\n", f, n, h);
    FlatLines("muninn/reported/v1\n", f, n, h);
    FlatTail("muninn/reported/v1\n", ChunkLines(f, i, h), s);
  }
}
