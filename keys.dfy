/**
 * Storage keys for uploaded gifs: `gen_random_string` and the key that
 * `randomize_filename` builds from two random segments and the file name.
 *
 * `Math.floor(Math.random() * s.length)` is replaced by a stream of draws,
 * each an index into the 62-character alphabet; the lemmas
 * `GenRandomStringReaches` and `KeyShapeComplete` show that this loses no
 * outcome the source can produce.
 */
module Keys {
  import opened Wrappers

  /** The characters `gen_random_string` picks from, in the source's order. */
  const Alphabet: string := "abcdefghijklmnopqrstuvwxyzABCDEFGHIJKLMNOPQRSTUVWXYZ0123456789"

  // The three runs `Alphabet` is made of, used only to reason about it.
  const Lowers: string := "abcdefghijklmnopqrstuvwxyz"
  const Uppers: string := "ABCDEFGHIJKLMNOPQRSTUVWXYZ"
  const Digits: string := "0123456789"

  /** Length of each random segment of a storage key. */
  const SegmentLength: nat := 4

  /** One random draw: an index into `Alphabet`. */
  type Draw = i: int | 0 <= i < 62

  /** The source of randomness: the n-th draw made. */
  type RandomStream = nat -> Draw

  /** The draws of `rand` after the first `n`. */
  function Skip(rand: RandomStream, n: nat): RandomStream {
    i => rand(n + i)
  }

  predicate IsAlphanumeric(c: char) {
    'a' <= c <= 'z' || 'A' <= c <= 'Z' || '0' <= c <= '9'
  }

  /** A string every character of which `gen_random_string` can produce. */
  predicate IsRandomString(s: string) {
    forall i :: 0 <= i < |s| ==> s[i] in Alphabet
  }

  lemma AlphabetLength()
    ensures |Alphabet| == 62
  {
  }

  /** The alphabet is exactly the ASCII letters and digits. */
  lemma AlphabetIsAlphanumeric(c: char)
    ensures c in Alphabet <==> IsAlphanumeric(c)
  {
    assert Alphabet == Lowers + Uppers + Digits;
    LowersRange(c);
    UppersRange(c);
    DigitsRange(c);
  }

  lemma LowersRange(c: char)
    ensures c in Lowers <==> 'a' <= c <= 'z'
  {
  }

  lemma UppersRange(c: char)
    ensures c in Uppers <==> 'A' <= c <= 'Z'
  {
  }

  lemma DigitsRange(c: char)
    ensures c in Digits <==> '0' <= c <= '9'
  {
  }

  /** The draw that picks `c`; only ghost code needs to invert a draw. */
  ghost function DrawOf(c: char): (d: Draw)
    requires c in Alphabet
    ensures Alphabet[d] == c
  {
    AlphabetLength();
    var d :| 0 <= d < |Alphabet| && Alphabet[d] == c; d
  }

  /** `gen_random_string(length)`: `length` characters, the i-th one picked by the i-th draw. */
  function GenRandomString(length: nat, rand: RandomStream): (s: string)
    ensures |s| == length && IsRandomString(s)
    ensures forall i :: 0 <= i < |s| ==> s[i] == Alphabet[rand(i)]
  {
    AlphabetLength();
    seq(length, i requires 0 <= i < length => Alphabet[rand(i)])
  }

  /** Every alphanumeric string of length n is a possible value of `gen_random_string(n)`. */
  lemma GenRandomStringReaches(s: string)
    requires IsRandomString(s)
    ensures exists rand: RandomStream :: GenRandomString(|s|, rand) == s
  {
    var rand: RandomStream := (i: nat) => if i < |s| then DrawOf(s[i]) else 0;
    assert GenRandomString(|s|, rand) == s;
  }

  /**
   * The key `randomize_filename` assigns:
   * `gen_random_string(4) + '-' + gen_random_string(4) + '/' + filename`.
   * The second segment uses the draws that follow those of the first.
   */
  function RandomizedKey(filename: string, rand: RandomStream): (key: string)
    ensures |key| == |filename| + 2 * SegmentLength + 2
    ensures KeyShape(key, filename)
  {
    GenRandomString(SegmentLength, rand) + "-"
      + GenRandomString(SegmentLength, Skip(rand, SegmentLength)) + "/" + filename
  }

  /** The layout of a storage key for `filename`: `s1-s2/filename` with two 4-character random segments. */
  predicate KeyShape(key: string, filename: string) {
    |key| == |filename| + 10
    && IsRandomString(key[..4]) && key[4] == '-'
    && IsRandomString(key[5..9]) && key[9] == '/'
    && key[10..] == filename
  }

  /** Every key of the right layout is a possible result of `randomize_filename`. */
  lemma KeyShapeComplete(key: string, filename: string)
    requires KeyShape(key, filename)
    ensures exists rand: RandomStream :: RandomizedKey(filename, rand) == key
  {
    var rand: RandomStream := (i: nat) =>
      if i < 4 && key[i] in Alphabet then DrawOf(key[i])
      else if 4 <= i < 8 && key[i + 1] in Alphabet then DrawOf(key[i + 1])
      else 0;
    var k := RandomizedKey(filename, rand);
    forall i | 0 <= i < |key|
      ensures k[i] == key[i]
    {
      if i < 4 {
        assert key[..4][i] == key[i];
      } else if 5 <= i < 9 {
        assert key[5..9][i - 5] == key[i];
      } else if 10 <= i {
        assert key[10..][i - 10] == key[i];
      }
    }
    assert k == key;
  }

  /** The part of a key after its first `/`, if it has one. */
  function AfterFirstSlash(key: string): (r: Option<string>)
    ensures r.Some? <==> '/' in key
    ensures r.Some? ==> |r.value| < |key| && r.value == key[|key| - |r.value|..]
  {
    if key == [] then None
    else if key[0] == '/' then Some(key[1..])
    else AfterFirstSlash(key[1..])
  }

  /** A prefix without `/` does not change what follows the first `/`. */
  lemma {:induction false} AfterFirstSlashSkips(prefix: string, rest: string)
    requires '/' !in prefix
    ensures AfterFirstSlash(prefix + rest) == AfterFirstSlash(rest)
  {
    if prefix != [] {
      assert prefix[0] in prefix && (prefix + rest)[0] == prefix[0];
      assert (prefix + rest)[1..] == prefix[1..] + rest;
      AfterFirstSlashSkips(prefix[1..], rest);
    } else {
      assert prefix + rest == rest;
    }
  }

  /** The first `/` of a storage key is at index 9, and what follows it is the original file name. */
  lemma FileNameRecoverable(filename: string, rand: RandomStream)
    ensures var key := RandomizedKey(filename, rand);
      '/' !in key[..9] && key[9] == '/' && AfterFirstSlash(key) == Some(filename)
  {
    var key := RandomizedKey(filename, rand);
    AlphabetIsAlphanumeric('/');
    AlphabetIsAlphanumeric('-');
    assert key[..9] == key[..4] + "-" + key[5..9];
    assert key == key[..9] + key[9..];
    AfterFirstSlashSkips(key[..9], key[9..]);
  }
}
