/**
 * internal/store/hash.go and the key helpers: normalized hashes, `chunkKey` with its parser, and
 * the `login:signature` keys under which peers address each other.
 */
module Keys {
  import opened Text

  // ---------------------------------------------------------------- hashes

  function NormalizeHash(h: string): string {
    Lower(Trim(h))
  }

  predicate IsHex(c: char) {
    '0' <= c <= '9' || 'a' <= c <= 'f'
  }

  predicate ValidHash(h: string) {
    |h| == 16 && forall i :: 0 <= i < |h| ==> IsHex(h[i])
  }

  /** The accepted hashes: sixteen of these characters. */
  lemma HashTexts(h: string)
    ensures ValidHash(h) <==> |h| == 16 && forall c :: c in h ==> c in "0123456789abcdef"
  {
    forall c: char
      ensures IsHex(c) <==> c in "0123456789abcdef"
    {
      var digits := "0123456789abcdef";
      if '0' <= c <= '9' {
        assert digits[c as int - '0' as int] == c;
      } else if 'a' <= c <= 'f' {
        assert digits[c as int - 'a' as int + 10] == c;
      }
    }
  }

  /** The scanning loop of `validHashFormat`. */
  method ValidHashFormat(h: string) returns (ok: bool)
    ensures ok <==> ValidHash(h)
  {
    if |h| != 16 {
      return false;
    }
    for i := 0 to |h|
      invariant forall j :: 0 <= j < i ==> IsHex(h[j])
    {
      if !IsHex(h[i]) {
        return false;
      }
    }
    return true;
  }

  // ---------------------------------------------------------------- chunk keys

  function ChunkKey(fileId: string, index: int): string {
    fileId + ['#'] + Itoa(index)
  }

  /** The first part of `strings.SplitN(key, "#", 2)`. */
  function KeyFileId(key: string): string {
    var i := IndexOf(key, '#');
    if i < 0 then "" else key[..i]
  }

  /** The second part, read by `strconv.Atoi`. */
  function KeyIndex(key: string): int {
    var i := IndexOf(key, '#');
    if i < 0 then -1 else Atoi(key[i + 1..])
  }

  function ParseChunkKey(key: string): (string, int) {
    (KeyFileId(key), KeyIndex(key))
  }

  /** The part of a file id that the parser can recover. */
  function BeforeHash(fileId: string): string {
    var i := IndexOf(fileId, '#');
    if i < 0 then fileId else fileId[..i]
  }

  /** No two chunks share a key, whatever characters their file ids hold. */
  lemma ChunkKeyInjective(f: string, i: int, g: string, j: int)
    ensures ChunkKey(f, i) == ChunkKey(g, j) <==> f == g && i == j
  {
    if ChunkKey(f, i) == ChunkKey(g, j) {
      if '#' in Itoa(i) { ItoaAlphabet(i, '#'); }
      if '#' in Itoa(j) { ItoaAlphabet(j, '#'); }
      RightSplit(f, Itoa(i), g, Itoa(j), '#');
      ItoaInjective(i, j);
    }
  }

  lemma ParsedFileId(f: string, i: int)
    ensures KeyFileId(ChunkKey(f, i)) == BeforeHash(f)
  {
    var key := ChunkKey(f, i);
    var k := IndexOf(f, '#');
    if k < 0 {
      assert key[..|f|] == f && key[|f|] == '#';
      FirstAt(key, '#', |f|);
    } else {
      assert key[..k] == f[..k] && key[k] == '#';
      FirstAt(key, '#', k);
    }
  }

  /** Parsing undoes printing exactly for the file ids without a '#'. */
  lemma ParseUndoesChunkKey(f: string, i: int)
    requires InInt64(i)
    ensures ParseChunkKey(ChunkKey(f, i)) == (f, i) <==> '#' !in f
  {
    ParsedFileId(f, i);
    if '#' !in f {
      FirstSeparator(f, '#', Itoa(i));
      assert ChunkKey(f, i)[|f| + 1..] == Itoa(i);
      AtoiOfItoa(i);
    }
  }

  /** The file id a chunk key was made for: what stands before the last '#'. */
  function RegisteredFile(key: string): string {
    var i := LastIndexOf(key, '#');
    if i < 0 then "" else key[..i]
  }

  lemma RegisteredFileOf(f: string, i: int)
    ensures RegisteredFile(ChunkKey(f, i)) == f
  {
    var key := ChunkKey(f, i);
    var k := LastIndexOf(key, '#');
    assert key[|f|] == '#';
    if '#' in Itoa(i) { ItoaAlphabet(i, '#'); }
    Rejoin(key, k);
    RightSplit(key[..k], key[k + 1..], f, Itoa(i), '#');
  }

  // ---------------------------------------------------------------- peer keys

  /** `Peer.Key`. */
  function PeerKey(login: string, signatureKey: string): string {
    login + [':'] + signatureKey
  }

  /** Keys whose signature part holds no ':' are read back in only one way. */
  lemma PeerKeyDetermines(login: string, sig: string, login': string, sig': string)
    requires ':' !in sig && ':' !in sig'
    requires PeerKey(login, sig) == PeerKey(login', sig')
    ensures login == login' && sig == sig'
  {
    RightSplit(login, sig, login', sig', ':');
  }

  /**
   * Without that hypothesis: a key belongs to one (login, signature) pair only, exactly when
   * neither part holds a ':'.
   */
  lemma PeerKeyUniqueIffNoColon(login: string, sig: string)
    ensures (forall login', sig' :: PeerKey(login', sig') == PeerKey(login, sig) ==> login' == login && sig' == sig)
            <==> ':' !in login && ':' !in sig
  {
    var key := PeerKey(login, sig);
    if ':' in login {
      var k := IndexOf(login, ':');
      var rest := login[k + 1..] + [':'] + sig;
      assert login == login[..k] + [':'] + login[k + 1..];
      assert PeerKey(login[..k], rest) == key;
      assert login[..k] != login;
    } else if ':' in sig {
      var k := IndexOf(sig, ':');
      var front := login + [':'] + sig[..k];
      assert sig == sig[..k] + [':'] + sig[k + 1..];
      assert PeerKey(front, sig[k + 1..]) == key;
      assert |front| > |login|;
    } else {
      forall login', sig' | PeerKey(login', sig') == key
        ensures login' == login && sig' == sig
      {
        OneColon(login, sig, login', sig');
      }
    }
  }

  lemma OneColon(login: string, sig: string, login': string, sig': string)
    requires ':' !in login && ':' !in sig
    requires PeerKey(login', sig') == PeerKey(login, sig)
    ensures login' == login && sig' == sig
  {
    var key := PeerKey(login, sig);
    assert key[|login'|] == ':';
    assert forall i :: 0 <= i < |login| ==> key[i] == login[i];
    assert forall i :: |login| < i < |key| ==> key[i] == sig[i - |login| - 1];
    assert login == key[..|login|] && login' == key[..|login|];
    assert sig == key[|login| + 1..] && sig' == key[|login| + 1..];
  }

  lemma ColonsOfKey(login: string, sig: string)
    ensures Count(PeerKey(login, sig), ':') == Count(login, ':') + 1 + Count(sig, ':')
  {
    CountConcat(login + [':'], sig, ':');
    CountConcat(login, [':'], ':');
  }

  /** All peers with the key have the same signature key. */
  ghost predicate PinsSignature(key: string) {
    forall login, sig, login', sig' :: PeerKey(login, sig) == key && PeerKey(login', sig') == key ==> sig == sig'
  }

  /** A second pair with the key of (login, sig), when `sig` holds a ':'. */
  lemma OtherReading(login: string, sig: string) returns (login': string, sig': string)
    requires ':' in sig
    ensures PeerKey(login', sig') == PeerKey(login, sig) && sig' != sig
  {
    var k := IndexOf(sig, ':');
    login', sig' := login + [':'] + sig[..k], sig[k + 1..];
    assert sig == sig[..k] + [':'] + sig[k + 1..];
    assert |sig'| < |sig|;
  }

  lemma PinsIffNoColonLeft(login: string, sig: string)
    requires ':' !in login
    ensures PinsSignature(PeerKey(login, sig)) <==> ':' !in sig
  {
    if ':' in sig {
      var login', sig' := OtherReading(login, sig);
    } else {
      forall login', sig' | PeerKey(login', sig') == PeerKey(login, sig)
        ensures sig' == sig
      {
        OneColon(login, sig, login', sig');
      }
    }
  }

  lemma OneColonIffNoColonLeft(login: string, sig: string)
    requires ':' !in login
    ensures Count(PeerKey(login, sig), ':') == 1 <==> ':' !in sig
  {
    ColonsOfKey(login, sig);
    CountZero(login, ':');
    CountZero(sig, ':');
  }

  /** A key pins the signature key of its peers exactly when it holds a single ':'. */
  lemma KeyPinsSignatureIff(key: string)
    requires ':' in key
    ensures PinsSignature(key) <==> Count(key, ':') == 1
  {
    var i := IndexOf(key, ':');
    Rejoin(key, i);
    PinsIffNoColonLeft(key[..i], key[i + 1..]);
    OneColonIffNoColonLeft(key[..i], key[i + 1..]);
  }

  /** How `dbStore.getPeerByKey` splits a key; without a ':' its second index is out of range. */
  function SplitPeerKey(key: string): (r: seq<string>)
    ensures |r| == if ':' in key then 2 else 1
  {
    var i := IndexOf(key, ':');
    if i < 0 then [key] else [key[..i], key[i + 1..]]
  }

  /** The split finds the peer that the key belongs to exactly when its login holds no ':'. */
  lemma SplitUndoesPeerKeyIff(login: string, sig: string)
    ensures SplitPeerKey(PeerKey(login, sig)) == [login, sig] <==> ':' !in login
  {
    var key := PeerKey(login, sig);
    if ':' !in login {
      FirstSeparator(login, ':', sig);
      assert key[..|login|] == login && key[|login| + 1..] == sig;
    } else {
      assert key[|login|] == ':';
      assert ':' !in SplitPeerKey(key)[0];
    }
  }
}
