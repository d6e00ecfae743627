/**
 * `validateInitData`: the check of the signed init-data payload a Telegram
 * client sends. The payload's decoded key/value pairs lose their `hash` entry,
 * the rest are sorted by key and joined as `key=value` lines, and the
 * lowercase-hex HMAC-SHA256 of that text, keyed by SHA-256 of the bot token,
 * must equal the received `hash`.
 */
module InitData {
  import opened Wrappers
  import opened Sorting

  /** One decoded `key=value` entry of the payload, in payload order. */
  type Pair = (string, string)

  type Bytes = seq<bv8>

  /**
   * SHA-256 (FIPS 180-4), HMAC-SHA256 (RFC 2104) and lowercase hex rendering,
   * given rather than implemented; a string argument stands for its UTF-8 bytes.
   */
  datatype Crypto = Crypto(
    sha256: string -> Bytes,
    hmacSha256: (Bytes, string) -> Bytes,
    hex: Bytes -> string)

  /** `{ok: true, data}` or `{ok: false, reason}`. */
  datatype Verdict = Verified(data: map<string, string>) | Rejected(reason: string)

  const HashKey := "hash"
  const MissingInput := "Missing init data or bot token"
  const MissingHash := "Missing hash"
  const InvalidHash := "Invalid hash"

  /** `params.get(key)`: the value of the first entry with that key. */
  function FirstValue(pairs: seq<Pair>, key: string): (r: Option<string>)
    ensures r.Some? ==> (key, r.value) in pairs
    ensures r.None? <==> forall i :: 0 <= i < |pairs| ==> pairs[i].0 != key
  {
    if pairs == [] then None
    else if pairs[0].0 == key then Some(pairs[0].1)
    else
      var r := FirstValue(pairs[1..], key);
      assert r.Some? ==> (key, r.value) in pairs[1..];
      r
  }

  /** `params.delete(key)`: every entry with that key removed, the others kept in order. */
  function Without(pairs: seq<Pair>, key: string): (r: seq<Pair>)
    ensures forall i :: 0 <= i < |r| ==> r[i].0 != key
  {
    if pairs == [] then []
    else if pairs[0].0 == key then Without(pairs[1..], key)
    else [pairs[0]] + Without(pairs[1..], key)
  }

  /** Deleting a key removes every copy of its entries and keeps every copy of the others. */
  lemma {:induction false} WithoutCount(pairs: seq<Pair>, key: string)
    ensures forall x :: multiset(Without(pairs, key))[x] == if x.0 == key then 0 else multiset(pairs)[x]
  {
    if pairs != [] {
      WithoutCount(pairs[1..], key);
      assert pairs == [pairs[0]] + pairs[1..];
    }
  }

  /** The order `sort(([a], [b]) => a.localeCompare(b))` puts entries in, given the key order. */
  function ByKey(keyLe: (string, string) -> bool): (Pair, Pair) -> bool {
    (a: Pair, b: Pair) => keyLe(a.0, b.0)
  }

  /** `${key}=${value}` */
  function Render(p: Pair): string {
    p.0 + "=" + p.1
  }

  function Lines(pairs: seq<Pair>): (lines: seq<string>)
    ensures |lines| == |pairs|
    ensures forall i :: 0 <= i < |pairs| ==> lines[i] == Render(pairs[i])
  {
    seq(|pairs|, i requires 0 <= i < |pairs| => Render(pairs[i]))
  }

  /** `lines.join("\n")` */
  function Join(lines: seq<string>): string {
    if lines == [] then ""
    else if |lines| == 1 then lines[0]
    else lines[0] + "\n" + Join(lines[1..])
  }

  /** The non-hash entries in the order the data-check string lists them. */
  function SortedPairs(pairs: seq<Pair>, keyLe: (string, string) -> bool): seq<Pair> {
    Sort(ByKey(keyLe), Without(pairs, HashKey))
  }

  function DataCheckString(pairs: seq<Pair>, keyLe: (string, string) -> bool): string {
    Join(Lines(SortedPairs(pairs, keyLe)))
  }

  /** `createHmac("sha256", createHash("sha256").update(botToken).digest()).update(text).digest("hex")` */
  function Signature(crypto: Crypto, botToken: string, text: string): string {
    crypto.hex(crypto.hmacSha256(crypto.sha256(botToken), text))
  }

  /** `Object.fromEntries(entries)`: entries applied in order, a later one overriding an earlier one. */
  function FromEntries(pairs: seq<Pair>): map<string, string> {
    if pairs == [] then map[] else map[pairs[0].0 := pairs[0].1] + FromEntries(pairs[1..])
  }

  /** Every key of the entries, and nothing else, is a key of the object. */
  lemma {:induction false} FromEntriesKeys(pairs: seq<Pair>, key: string)
    ensures key in FromEntries(pairs) <==> exists i :: 0 <= i < |pairs| && pairs[i].0 == key
  {
    if pairs != [] {
      FromEntriesKeys(pairs[1..], key);
      if exists i :: 1 <= i < |pairs| && pairs[i].0 == key {
        var i :| 1 <= i < |pairs| && pairs[i].0 == key;
        assert pairs[1..][i - 1].0 == key;
      }
      if exists i :: 0 <= i < |pairs[1..]| && pairs[1..][i].0 == key {
        var i :| 0 <= i < |pairs[1..]| && pairs[1..][i].0 == key;
        assert pairs[i + 1].0 == key;
      }
    }
  }

  /** A key's value is that of its last entry. */
  lemma {:induction false} FromEntriesLastWins(pairs: seq<Pair>, i: int)
    requires 0 <= i < |pairs|
    requires forall j :: i < j < |pairs| ==> pairs[j].0 != pairs[i].0
    ensures pairs[i].0 in FromEntries(pairs) && FromEntries(pairs)[pairs[i].0] == pairs[i].1
  {
    var rest := pairs[1..];
    if i == 0 {
      forall j | 0 <= j < |rest| ensures rest[j].0 != pairs[0].0 {
        assert rest[j] == pairs[j + 1];
      }
      FromEntriesKeys(rest, pairs[0].0);
    } else {
      assert forall j :: i - 1 < j < |rest| ==> rest[j].0 != rest[i - 1].0 by {
        forall j | i - 1 < j < |rest| ensures rest[j].0 != rest[i - 1].0 {
          assert rest[j] == pairs[j + 1];
        }
      }
      FromEntriesLastWins(rest, i - 1);
    }
  }

  /**
   * The validator. `initData` is `None` when the field is falsy (absent or
   * the empty string); otherwise it holds the decoded entries of the string.
   * An empty `botToken` is the falsy token.
   */
  function ValidateInitData(initData: Option<seq<Pair>>, botToken: string, crypto: Crypto,
                            keyLe: (string, string) -> bool): Verdict
  {
    if initData.None? || botToken == "" then Rejected(MissingInput)
    else
      var params := initData.value;
      var hash := FirstValue(params, HashKey);
      if hash.None? || hash.value == "" then Rejected(MissingHash)
      else
        var rest := Without(params, HashKey);
        if Signature(crypto, botToken, DataCheckString(params, keyLe)) != hash.value then Rejected(InvalidHash)
        else Verified(FromEntries(rest))
  }

  // ---------------------------------------------------------------------
  // The outcomes of the validator.

  /** A falsy payload or token is rejected before any hashing: the verdict does not depend on the crypto. */
  lemma MissingInputRejected(initData: Option<seq<Pair>>, botToken: string, c1: Crypto, c2: Crypto,
                             keyLe: (string, string) -> bool)
    requires initData.None? || botToken == ""
    ensures ValidateInitData(initData, botToken, c1, keyLe) == Rejected(MissingInput)
    ensures ValidateInitData(initData, botToken, c1, keyLe) == ValidateInitData(initData, botToken, c2, keyLe)
  {
  }

  /** A payload without a hash entry, or whose first hash entry is empty, is rejected before any hashing. */
  lemma MissingHashRejected(pairs: seq<Pair>, botToken: string, c1: Crypto, c2: Crypto,
                            keyLe: (string, string) -> bool)
    requires botToken != ""
    requires (forall i :: 0 <= i < |pairs| ==> pairs[i].0 != HashKey) || FirstValue(pairs, HashKey) == Some("")
    ensures ValidateInitData(Some(pairs), botToken, c1, keyLe) == Rejected(MissingHash)
    ensures ValidateInitData(Some(pairs), botToken, c1, keyLe) == ValidateInitData(Some(pairs), botToken, c2, keyLe)
  {
  }

  /**
   * The payload is accepted exactly when the signature of its data-check
   * string equals its (first, non-empty) hash; a present hash that does not
   * match gives "Invalid hash". On acceptance the data holds every non-hash
   * key, with the value of its last entry, and no `hash` key.
   */
  lemma VerdictCharacterised(pairs: seq<Pair>, botToken: string, crypto: Crypto, keyLe: (string, string) -> bool)
    requires botToken != ""
    ensures var v := ValidateInitData(Some(pairs), botToken, crypto, keyLe);
      && (v.Verified? <==> exists h :: FirstValue(pairs, HashKey) == Some(h) && h != ""
                                       && Signature(crypto, botToken, DataCheckString(pairs, keyLe)) == h)
      && ((v.Rejected? && FirstValue(pairs, HashKey).Some? && FirstValue(pairs, HashKey).value != "")
            ==> v.reason == InvalidHash)
      && (v.Verified? ==>
            && HashKey !in v.data
            && (forall i :: 0 <= i < |pairs| && pairs[i].0 != HashKey ==> pairs[i].0 in v.data)
            && v.data == FromEntries(Without(pairs, HashKey)))
  {
    var v := ValidateInitData(Some(pairs), botToken, crypto, keyLe);
    if v.Verified? {
      var rest := Without(pairs, HashKey);
      WithoutCount(pairs, HashKey);
      assert v.data == FromEntries(rest);
      FromEntriesKeys(rest, HashKey);
      forall i | 0 <= i < |pairs| && pairs[i].0 != HashKey
        ensures pairs[i].0 in v.data
      {
        assert multiset(rest)[pairs[i]] == multiset(pairs)[pairs[i]] > 0;
        assert pairs[i] in rest;
        FromEntriesKeys(rest, pairs[i].0);
      }
    }
  }

  // ---------------------------------------------------------------------
  // The data-check string.

  lemma ByKeyPreorder(keyLe: (string, string) -> bool)
    requires TotalPreorder(keyLe)
    ensures TotalPreorder(ByKey(keyLe))
  {
    var le := ByKey(keyLe);
    forall a: Pair, b: Pair ensures le(a, b) || le(b, a) {
      assert keyLe(a.0, b.0) || keyLe(b.0, a.0);
    }
    forall a: Pair, b: Pair, c: Pair | le(a, b) && le(b, c) ensures le(a, c) {
      assert keyLe(a.0, b.0) && keyLe(b.0, c.0);
    }
  }

  /**
   * The data-check string lists, one `key=value` line each, exactly the
   * non-hash entries, ordered by key: no line comes from a `hash` entry.
   */
  lemma DataCheckStringShape(pairs: seq<Pair>, keyLe: (string, string) -> bool)
    requires TotalPreorder(keyLe)
    ensures var s := SortedPairs(pairs, keyLe);
      && DataCheckString(pairs, keyLe) == Join(Lines(s))
      && SortedBy(ByKey(keyLe), s)
      && (forall i :: 0 <= i < |s| ==> s[i].0 != HashKey)
      && (forall x :: multiset(s)[x] == if x.0 == HashKey then 0 else multiset(pairs)[x])
  {
    var s := SortedPairs(pairs, keyLe);
    WithoutCount(pairs, HashKey);
    ByKeyPreorder(keyLe);
    SortSorted(ByKey(keyLe), Without(pairs, HashKey));
    forall i | 0 <= i < |s| ensures s[i].0 != HashKey {
      assert s[i] in multiset(Without(pairs, HashKey));
    }
  }

  function TotalLength(lines: seq<string>): nat {
    if lines == [] then 0 else |lines[0]| + TotalLength(lines[1..])
  }

  /**
   * `join("\n")` puts exactly one separator between neighbouring lines and
   * none after the last: appending a line appends "\n" and the line, and the
   * length is the lines' total plus one per gap.
   */
  lemma {:induction false} JoinShape(lines: seq<string>, last: string)
    ensures lines != [] ==> Join(lines + [last]) == Join(lines) + "\n" + last
    ensures lines != [] ==> |Join(lines)| == TotalLength(lines) + |lines| - 1
  {
    if |lines| > 1 {
      JoinShape(lines[1..], last);
      assert (lines + [last])[1..] == lines[1..] + [last];
    } else if |lines| == 1 {
      assert (lines + [last])[1..] == [last];
      assert lines[1..] == [];
    }
  }

  // ---------------------------------------------------------------------
  // Independence from the order of the payload's entries.

  /** No two entries share a key (and none occurs twice). */
  ghost predicate DistinctKeys(pairs: seq<Pair>) {
    forall a, b :: a in multiset(pairs) && b in multiset(pairs) && a.0 == b.0 ==> a == b && multiset(pairs)[a] == 1
  }

  /** With distinct keys, `get` finds exactly the value paired with the key. */
  lemma FirstValueDistinct(pairs: seq<Pair>, key: string, value: string)
    requires DistinctKeys(pairs)
    ensures FirstValue(pairs, key) == Some(value) <==> (key, value) in pairs
  {
    if (key, value) in pairs {
      var i :| 0 <= i < |pairs| && pairs[i] == (key, value);
      var r := FirstValue(pairs, key);
      assert r.Some?;
      assert (key, r.value) in multiset(pairs) && (key, value) in multiset(pairs);
    }
  }

  /** Two equal entries at different positions count twice. */
  lemma TwoPositionsTwoCopies(pairs: seq<Pair>, i: int, j: int)
    requires 0 <= i < j < |pairs|
    ensures pairs[i] == pairs[j] ==> multiset(pairs)[pairs[j]] >= 2
  {
    assert pairs == pairs[..j] + pairs[j..];
    assert pairs[..j][i] == pairs[i];
    assert pairs[j..][0] == pairs[j];
    assert multiset(pairs)[pairs[j]] == multiset(pairs[..j])[pairs[j]] + multiset(pairs[j..])[pairs[j]];
  }

  /** Under distinct keys a later entry never repeats an earlier key. */
  lemma DistinctNoLaterKey(pairs: seq<Pair>, i: int, j: int)
    requires DistinctKeys(pairs)
    requires 0 <= i < j < |pairs|
    ensures pairs[i].0 != pairs[j].0
  {
    assert pairs[i] in multiset(pairs) && pairs[j] in multiset(pairs);
    TwoPositionsTwoCopies(pairs, i, j);
  }

  /** With distinct keys the map holds exactly the payload's entries. */
  lemma FromEntriesDistinct(pairs: seq<Pair>, key: string, value: string)
    requires DistinctKeys(pairs)
    ensures (key in FromEntries(pairs) && FromEntries(pairs)[key] == value) <==> (key, value) in pairs
  {
    FromEntriesKeys(pairs, key);
    if key in FromEntries(pairs) {
      var i :| 0 <= i < |pairs| && pairs[i].0 == key;
      forall j | i < j < |pairs| ensures pairs[j].0 != pairs[i].0 {
        DistinctNoLaterKey(pairs, i, j);
      }
      FromEntriesLastWins(pairs, i);
      if (key, value) in pairs {
        var k :| 0 <= k < |pairs| && pairs[k] == (key, value);
        assert pairs[k] in multiset(pairs) && pairs[i] in multiset(pairs);
      }
    }
  }

  lemma DistinctKeysSubset(small: seq<Pair>, big: seq<Pair>)
    requires multiset(small) <= multiset(big)
    requires DistinctKeys(big)
    ensures DistinctKeys(small)
  {
    forall a, b | a in multiset(small) && b in multiset(small) && a.0 == b.0
      ensures a == b && multiset(small)[a] == 1
    {
      assert a in multiset(big) && b in multiset(big);
    }
  }

  /** Distinct keys under a key order that is total leave the sort no tie to break. */
  lemma DistinctNoTies(pairs: seq<Pair>, keyLe: (string, string) -> bool)
    requires DistinctKeys(pairs)
    requires Antisymmetric(keyLe)
    ensures NoTies(ByKey(keyLe), multiset(pairs))
  {
    var le := ByKey(keyLe);
    forall a, b | a in multiset(pairs) && b in multiset(pairs) && le(a, b) && le(b, a)
      ensures a == b
    {
      assert keyLe(a.0, b.0) && keyLe(b.0, a.0);
    }
  }

  lemma WithoutPermutation(p: seq<Pair>, q: seq<Pair>)
    requires multiset(p) == multiset(q)
    ensures multiset(Without(p, HashKey)) == multiset(Without(q, HashKey))
  {
    var wp, wq := Without(p, HashKey), Without(q, HashKey);
    WithoutCount(p, HashKey);
    WithoutCount(q, HashKey);
    forall x ensures multiset(wp)[x] == multiset(wq)[x] {}
  }

  lemma SortedPairsPermutation(p: seq<Pair>, q: seq<Pair>, keyLe: (string, string) -> bool)
    requires multiset(p) == multiset(q)
    requires DistinctKeys(p)
    requires TotalPreorder(keyLe) && Antisymmetric(keyLe)
    ensures SortedPairs(p, keyLe) == SortedPairs(q, keyLe)
  {
    var wp, wq := Without(p, HashKey), Without(q, HashKey);
    WithoutPermutation(p, q);
    WithoutCount(p, HashKey);
    DistinctKeysSubset(wp, p);
    ByKeyPreorder(keyLe);
    SortSorted(ByKey(keyLe), wp);
    SortSorted(ByKey(keyLe), wq);
    DistinctNoTies(wp, keyLe);
    SortedUnique(ByKey(keyLe), Sort(ByKey(keyLe), wp), Sort(ByKey(keyLe), wq));
  }

  lemma FirstValuePermutation(p: seq<Pair>, q: seq<Pair>, key: string)
    requires multiset(p) == multiset(q)
    requires DistinctKeys(p)
    ensures FirstValue(p, key) == FirstValue(q, key)
  {
    assert DistinctKeys(q);
    forall v ensures FirstValue(p, key) == Some(v) <==> FirstValue(q, key) == Some(v) {
      FirstValueDistinct(p, key, v);
      FirstValueDistinct(q, key, v);
      assert (key, v) in multiset(p) <==> (key, v) in multiset(q);
    }
  }

  lemma FromEntriesPermutation(p: seq<Pair>, q: seq<Pair>)
    requires multiset(p) == multiset(q)
    requires DistinctKeys(p)
    ensures FromEntries(p) == FromEntries(q)
  {
    assert DistinctKeys(q);
    var mp, mq := FromEntries(p), FromEntries(q);
    forall k | k in mp ensures k in mq && mq[k] == mp[k] {
      FromEntriesDistinct(p, k, mp[k]);
      assert (k, mp[k]) in multiset(q);
      FromEntriesDistinct(q, k, mp[k]);
    }
    forall k | k in mq ensures k in mp {
      FromEntriesDistinct(q, k, mq[k]);
      assert (k, mq[k]) in multiset(p);
      FromEntriesDistinct(p, k, mq[k]);
    }
  }

  /**
   * For a payload whose keys are distinct, any reordering of its entries
   * yields the same data-check string and the same verdict.
   */
  lemma PermutationInvariant(p: seq<Pair>, q: seq<Pair>, botToken: string, crypto: Crypto,
                             keyLe: (string, string) -> bool)
    requires multiset(p) == multiset(q)
    requires DistinctKeys(p)
    requires TotalPreorder(keyLe) && Antisymmetric(keyLe)
    ensures DataCheckString(p, keyLe) == DataCheckString(q, keyLe)
    ensures ValidateInitData(Some(p), botToken, crypto, keyLe) == ValidateInitData(Some(q), botToken, crypto, keyLe)
  {
    SortedPairsPermutation(p, q, keyLe);
    assert DataCheckString(p, keyLe) == DataCheckString(q, keyLe);
    FirstValuePermutation(p, q, HashKey);
    WithoutPermutation(p, q);
    WithoutCount(p, HashKey);
    DistinctKeysSubset(Without(p, HashKey), p);
    FromEntriesPermutation(Without(p, HashKey), Without(q, HashKey));
    SameVerdict(Some(p), Some(q), botToken, crypto, keyLe);
  }

  /** The verdict depends on the payload only through its hash, data-check string and non-hash entries. */
  lemma SameVerdict(a: Option<seq<Pair>>, b: Option<seq<Pair>>, botToken: string, crypto: Crypto,
                    keyLe: (string, string) -> bool)
    requires a.Some? && b.Some?
    requires FirstValue(a.value, HashKey) == FirstValue(b.value, HashKey)
    requires DataCheckString(a.value, keyLe) == DataCheckString(b.value, keyLe)
    requires FromEntries(Without(a.value, HashKey)) == FromEntries(Without(b.value, HashKey))
    ensures ValidateInitData(a, botToken, crypto, keyLe) == ValidateInitData(b, botToken, crypto, keyLe)
  {
  }

  // ---------------------------------------------------------------------
  // Tampering with the hash.

  lemma {:induction false} WithoutAppend(a: seq<Pair>, b: seq<Pair>, key: string)
    ensures Without(a + b, key) == Without(a, key) + Without(b, key)
  {
    if a != [] {
      assert (a + b)[1..] == a[1..] + b;
      WithoutAppend(a[1..], b, key);
    } else {
      assert a + b == b;
    }
  }

  lemma {:induction false} FirstValueAfterPrefix(pre: seq<Pair>, key: string, value: string, post: seq<Pair>)
    requires forall i :: 0 <= i < |pre| ==> pre[i].0 != key
    ensures FirstValue(pre + [(key, value)] + post, key) == Some(value)
  {
    if pre != [] {
      assert (pre + [(key, value)] + post)[1..] == pre[1..] + [(key, value)] + post;
      FirstValueAfterPrefix(pre[1..], key, value, post);
    }
  }

  /**
   * Changing only the value of the hash entry of an accepted payload makes it
   * rejected: the data-check string is unchanged, so the new hash cannot match.
   */
  lemma TamperedHashRejected(pre: seq<Pair>, post: seq<Pair>, h: string, h2: string, botToken: string,
                             crypto: Crypto, keyLe: (string, string) -> bool)
    requires forall i :: 0 <= i < |pre| ==> pre[i].0 != HashKey
    requires ValidateInitData(Some(pre + [(HashKey, h)] + post), botToken, crypto, keyLe).Verified?
    requires h2 != h
    ensures ValidateInitData(Some(pre + [(HashKey, h2)] + post), botToken, crypto, keyLe).Rejected?
  {
    var p1, p2 := pre + [(HashKey, h)] + post, pre + [(HashKey, h2)] + post;
    FirstValueAfterPrefix(pre, HashKey, h, post);
    FirstValueAfterPrefix(pre, HashKey, h2, post);
    WithoutHashEntry(pre, h, post);
    WithoutHashEntry(pre, h2, post);
    assert SortedPairs(p1, keyLe) == SortedPairs(p2, keyLe);
    assert DataCheckString(p1, keyLe) == DataCheckString(p2, keyLe);
  }

  /** Deleting the hash entries removes the one between `pre` and `post`, whatever its value. */
  lemma WithoutHashEntry(pre: seq<Pair>, h: string, post: seq<Pair>)
    ensures Without(pre + [(HashKey, h)] + post, HashKey) == Without(pre, HashKey) + Without(post, HashKey)
  {
    var entry := [(HashKey, h)];
    WithoutAppend(pre + entry, post, HashKey);
    WithoutAppend(pre, entry, HashKey);
    assert entry[1..] == [];
    assert Without(entry, HashKey) == Without(entry[1..], HashKey) == [];
    calc {
      Without(pre + entry + post, HashKey);
      Without(pre + entry, HashKey) + Without(post, HashKey);
      Without(pre, HashKey) + Without(entry, HashKey) + Without(post, HashKey);
      Without(pre, HashKey) + Without(post, HashKey);
    }
  }

  // ---------------------------------------------------------------------
  // Tampering with a signed value.

  /** Deleting the hash entries keeps a non-hash entry between `pre` and `post` where it was. */
  lemma WithoutOtherEntry(pre: seq<Pair>, k: string, v: string, post: seq<Pair>)
    requires k != HashKey
    ensures Without(pre + [(k, v)] + post, HashKey) == Without(pre, HashKey) + [(k, v)] + Without(post, HashKey)
  {
    var entry := [(k, v)];
    WithoutAppend(pre + entry, post, HashKey);
    WithoutAppend(pre, entry, HashKey);
    assert entry[1..] == [];
    assert Without(entry, HashKey) == entry;
  }

  /** Looking up another key does not see the value of the entry with key `k`. */
  lemma {:induction false} FirstValueOtherEntry(pre: seq<Pair>, k: string, v: string, v2: string,
                                               post: seq<Pair>, key: string)
    requires key != k
    ensures FirstValue(pre + [(k, v)] + post, key) == FirstValue(pre + [(k, v2)] + post, key)
  {
    if pre != [] {
      assert (pre + [(k, v)] + post)[1..] == pre[1..] + [(k, v)] + post;
      assert (pre + [(k, v2)] + post)[1..] == pre[1..] + [(k, v2)] + post;
      FirstValueOtherEntry(pre[1..], k, v, v2, post, key);
    } else {
      assert ([(k, v)] + post)[1..] == post == ([(k, v2)] + post)[1..];
    }
  }

  /** Two joins of lists that agree everywhere except at `i` are equal only if they also agree at `i`. */
  lemma {:induction false} JoinDiffersAt(lines: seq<string>, other: seq<string>, i: int)
    requires |lines| == |other| && 0 <= i < |lines|
    requires forall j :: 0 <= j < |lines| && j != i ==> lines[j] == other[j]
    ensures Join(lines) == Join(other) ==> lines[i] == other[i]
  {
    if |lines| > 1 {
      if i == 0 {
        assert lines[1..] == other[1..];
        var tail := "\n" + Join(lines[1..]);
        assert Join(lines) == lines[0] + tail && Join(other) == other[0] + tail;
        if Join(lines) == Join(other) {
          assert lines[0] == Join(lines)[..|lines[0]|] == other[0];
        }
      } else {
        JoinDiffersAt(lines[1..], other[1..], i - 1);
        var head := lines[0] + "\n";
        assert Join(lines) == head + Join(lines[1..]) && Join(other) == head + Join(other[1..]);
        if Join(lines) == Join(other) {
          assert Join(lines[1..]) == Join(lines)[|head|..] == Join(other[1..]);
        }
      }
    }
  }

  /**
   * For payloads with distinct keys, the sorted entries after replacing the
   * value of a non-hash entry are the old sorted entries with that one entry
   * replaced in place.
   */
  lemma SortedPairsReplaced(pre: seq<Pair>, k: string, v: string, v2: string, post: seq<Pair>,
                            keyLe: (string, string) -> bool) returns (idx: int)
    requires k != HashKey
    requires DistinctKeys(pre + [(k, v2)] + post)
    requires TotalPreorder(keyLe) && Antisymmetric(keyLe)
    ensures var s1 := SortedPairs(pre + [(k, v)] + post, keyLe);
      0 <= idx < |s1| && s1[idx] == (k, v) && SortedPairs(pre + [(k, v2)] + post, keyLe) == s1[idx := (k, v2)]
  {
    var at := WithoutReplaced(pre, k, v, v2, post);
    var w1 := Without(pre + [(k, v)] + post, HashKey);
    NoTiesWithout(pre + [(k, v2)] + post, keyLe);
    ByKeyPreorder(keyLe);
    ByKeySameKey(keyLe, (k, v2), w1[at]);
    idx := SortReplaced(ByKey(keyLe), w1, at, (k, v2));
  }

  /** Deleting the hash entries, then replacing the kept entry's value, is replacing it first. */
  lemma WithoutReplaced(pre: seq<Pair>, k: string, v: string, v2: string, post: seq<Pair>) returns (at: int)
    requires k != HashKey
    ensures var w1 := Without(pre + [(k, v)] + post, HashKey);
      0 <= at < |w1| && w1[at] == (k, v) && Without(pre + [(k, v2)] + post, HashKey) == w1[at := (k, v2)]
  {
    WithoutOtherEntry(pre, k, v, post);
    WithoutOtherEntry(pre, k, v2, post);
    at := |Without(pre, HashKey)|;
  }

  lemma NoTiesWithout(pairs: seq<Pair>, keyLe: (string, string) -> bool)
    requires DistinctKeys(pairs)
    requires Antisymmetric(keyLe)
    ensures NoTies(ByKey(keyLe), multiset(Without(pairs, HashKey)))
  {
    WithoutCount(pairs, HashKey);
    DistinctKeysSubset(Without(pairs, HashKey), pairs);
    DistinctNoTies(Without(pairs, HashKey), keyLe);
  }

  /** Entries with the same key compare alike. */
  lemma ByKeySameKey(keyLe: (string, string) -> bool, a: Pair, b: Pair)
    requires a.0 == b.0
    ensures forall z :: ByKey(keyLe)(a, z) == ByKey(keyLe)(b, z) && ByKey(keyLe)(z, a) == ByKey(keyLe)(z, b)
  {
  }

  /** Rendering entries that differ at most in the value at `idx`: equal texts mean equal entries. */
  lemma RenderedDiffersAt(s: seq<Pair>, idx: int, e: Pair)
    requires 0 <= idx < |s| && e.0 == s[idx].0
    ensures Join(Lines(s)) == Join(Lines(s[idx := e])) ==> s[idx] == e
  {
    var l1, l2 := Lines(s), Lines(s[idx := e]);
    forall j | 0 <= j < |l1| && j != idx
      ensures l1[j] == l2[j]
    {
      assert s[j] == s[idx := e][j];
    }
    JoinDiffersAt(l1, l2, idx);
    if l1[idx] == l2[idx] {
      var k := e.0;
      assert s[idx].1 == Render(s[idx])[|k| + 1..] == Render(e)[|k| + 1..] == e.1;
    }
  }

  /**
   * Changing the value of one signed (non-hash) entry of a payload with
   * distinct keys changes the data-check string: the text the signature is
   * computed over identifies every signed value.
   */
  lemma TamperedValueChangesString(pre: seq<Pair>, k: string, v: string, v2: string, post: seq<Pair>,
                                   keyLe: (string, string) -> bool)
    requires k != HashKey
    requires DistinctKeys(pre + [(k, v2)] + post)
    requires TotalPreorder(keyLe) && Antisymmetric(keyLe)
    ensures DataCheckString(pre + [(k, v)] + post, keyLe) == DataCheckString(pre + [(k, v2)] + post, keyLe)
      <==> v == v2
  {
    var idx := SortedPairsReplaced(pre, k, v, v2, post, keyLe);
    RenderedDiffersAt(SortedPairs(pre + [(k, v)] + post, keyLe), idx, (k, v2));
  }

  /**
   * A payload whose signed value was changed is accepted, under the same
   * hash and token, only if the signature maps two different data-check
   * strings to the same value: tampering with a value needs a collision.
   */
  lemma TamperedValueNeedsCollision(pre: seq<Pair>, k: string, v: string, v2: string, post: seq<Pair>,
                                    botToken: string, crypto: Crypto, keyLe: (string, string) -> bool)
    requires k != HashKey && v != v2
    requires DistinctKeys(pre + [(k, v2)] + post)
    requires TotalPreorder(keyLe) && Antisymmetric(keyLe)
    requires ValidateInitData(Some(pre + [(k, v)] + post), botToken, crypto, keyLe).Verified?
    requires ValidateInitData(Some(pre + [(k, v2)] + post), botToken, crypto, keyLe).Verified?
    ensures var d1 := DataCheckString(pre + [(k, v)] + post, keyLe);
      var d2 := DataCheckString(pre + [(k, v2)] + post, keyLe);
      d1 != d2 && Signature(crypto, botToken, d1) == Signature(crypto, botToken, d2)
  {
    TamperedValueChangesString(pre, k, v, v2, post, keyLe);
    FirstValueOtherEntry(pre, k, v, v2, post, HashKey);
  }
}
