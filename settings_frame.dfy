/**
 * The SETTINGS payload (section 6.5.1 of RFC 7540) as the asynchronous
 * session builds it (Http2SessionHandler.cpp:128-151) and reads it
 * (Http2SessionHandler.cpp:333-348): a run of 6-byte entries, each a 2-byte
 * identifier and a 4-byte value, big-endian.
 */
module SettingsFrame {
  import opened Wire
  import opened Wrappers
  import opened Http2Settings

  /** One payload entry. */
  function Entry(id: Identifier, v: U32): (r: seq<Byte>)
    ensures |r| == 6
  {
    BE16(Code(id)) + BE32(v)
  }

  /** Whether the i-th setting of ORDER differs from its default. */
  predicate Differs(s: Settings, defaults: Settings, i: nat)
    requires i < |ORDER|
  {
    Get(s, ORDER[i]) != Get(defaults, ORDER[i])
  }

  /** How many of the first n settings of ORDER differ from the defaults. */
  function DiffCount(s: Settings, defaults: Settings, n: nat): nat
    requires n <= |ORDER|
  {
    if n == 0 then 0
    else DiffCount(s, defaults, n - 1) + (if Differs(s, defaults, n - 1) then 1 else 0)
  }

  /**
   * The entries for the first n settings of ORDER: one entry, carrying the
   * setting's own value, for each setting that differs from the default.
   */
  function Entries(s: Settings, defaults: Settings, n: nat): (r: seq<Byte>)
    requires n <= |ORDER|
    ensures |r| == 6 * DiffCount(s, defaults, n) <= 6 * n
    ensures |r| % 6 == 0
  {
    if n == 0 then []
    else
      Entries(s, defaults, n - 1)
      + (if Differs(s, defaults, n - 1) then Entry(ORDER[n - 1], Get(s, ORDER[n - 1])) else [])
  }

  /** The whole payload the session advertises its settings with. */
  function SettingsPayload(s: Settings, defaults: Settings): seq<Byte>
  {
    Entries(s, defaults, |ORDER|)
  }

  /** The payload is a whole number of entries, at most the 36 bytes of the builder's buffer. */
  lemma PayloadSize(s: Settings, defaults: Settings)
    ensures |SettingsPayload(s, defaults)| % 6 == 0
    ensures |SettingsPayload(s, defaults)| <= 36
    ensures SettingsPayload(s, defaults) == [] <==> s == defaults
  {
    var n := |ORDER|;
    if s != defaults {
      var id :| Get(s, id) != Get(defaults, id);
      DiffCountPositive(s, defaults, n, Position(id));
    } else {
      DiffCountZero(s, defaults, n);
    }
  }

  lemma {:induction false} DiffCountPositive(s: Settings, defaults: Settings, n: nat, i: nat)
    requires i < n <= |ORDER| && Differs(s, defaults, i)
    ensures DiffCount(s, defaults, n) > 0
  {
    if i < n - 1 {
      DiffCountPositive(s, defaults, n - 1, i);
    }
  }

  lemma {:induction false} DiffCountZero(s: Settings, defaults: Settings, n: nat)
    requires n <= |ORDER| && s == defaults
    ensures DiffCount(s, defaults, n) == 0
  {
    if n > 0 {
      DiffCountZero(s, defaults, n - 1);
    }
  }

  /** One (identifier, value) pair read from six bytes and handed to `setSetting`. */
  function ReadPair(s: Settings, pair: seq<Byte>): (r: SetResult)
    requires |pair| == 6
    ensures r.Rejected? ==> r.code == PROTOCOL_ERROR || r.code == FLOW_CONTROL_ERROR
    ensures r.Updated? && Valid(s) ==> Valid(r.settings)
  {
    SetSetting(s, ReadBE16(pair[..2]), ReadBE32(pair[2..]))
  }

  datatype ApplyResult = ApplyResult(settings: Settings, error: Option<U32>, read: nat)

  /**
   * The session's reader loop: the pairs are applied in order; an unknown
   * identifier is skipped; the first refused value stops the loop with its
   * error code, after its own 6 bytes were read and with the earlier pairs
   * already stored.
   */
  function ApplyPairs(s: Settings, p: seq<Byte>): (r: ApplyResult)
    requires |p| % 6 == 0
    ensures r.read <= |p|
    ensures r.error.None? ==> r.read == |p|
    ensures r.error.Some? ==> r.error.value == PROTOCOL_ERROR || r.error.value == FLOW_CONTROL_ERROR
    ensures Valid(s) ==> Valid(r.settings)
    decreases |p|
  {
    if |p| == 0 then ApplyResult(s, None, 0)
    else
      var rest := p[6..];
      assert |rest| == |p| - 6 && |rest| % 6 == 0;
      match ReadPair(s, p[..6])
      case Updated(s') =>
        var r := ApplyPairs(s', rest);
        r.(read := r.read + 6)
      case UnknownIdentifier =>
        var r := ApplyPairs(s, rest);
        r.(read := r.read + 6)
      case Rejected(code) =>
        ApplyResult(s, Some(code), 6)
  }

  /** The reader stops only at a pair boundary. */
  lemma {:induction false} ApplyPairsReadsWholePairs(s: Settings, p: seq<Byte>)
    requires |p| % 6 == 0
    ensures ApplyPairs(s, p).read % 6 == 0
    decreases |p|
  {
    if |p| > 0 {
      ApplyPairsStep(s, p);
      var r := SetSetting(s, ReadBE16(p[..2]), ReadBE32(p[2..6]));
      if !r.Rejected? {
        var next := if r.Updated? then r.settings else s;
        ApplyPairsReadsWholePairs(next, p[6..]);
        NextPair(ApplyPairs(next, p[6..]).read);
      }
    }
  }

  lemma NextPair(m: nat)
    requires m % 6 == 0
    ensures (m + 6) % 6 == 0
  {
  }

  /**
   * One turn of the reader loop: the pair at the front is handed to
   * `setSetting`, and the rest of the run is read from what follows it.
   */
  lemma ApplyPairsStep(s: Settings, p: seq<Byte>)
    requires 6 <= |p| && |p| % 6 == 0
    ensures var r := SetSetting(s, ReadBE16(p[..2]), ReadBE32(p[2..6]));
            var a := ApplyPairs(s, p);
            if r.Rejected? then a == ApplyResult(s, Some(r.code), 6)
            else
              var b := ApplyPairs(if r.Updated? then r.settings else s, p[6..]);
              a == b.(read := b.read + 6)
  {
    assert p[..6][..2] == p[..2] && p[..6][2..] == p[2..6];
  }

  /** Applying a concatenation is applying its halves one after the other. */
  lemma {:induction false} ApplyPairsAppend(s: Settings, a: seq<Byte>, b: seq<Byte>)
    requires |a| % 6 == 0 && |b| % 6 == 0
    requires ApplyPairs(s, a).error.None?
    ensures var r := ApplyPairs(ApplyPairs(s, a).settings, b);
            ApplyPairs(s, a + b) == r.(read := r.read + |a|)
    decreases |a|
  {
    if |a| > 0 {
      var ab := a + b;
      assert ab[..6] == a[..6];
      assert ab[6..] == a[6..] + b;
      var step := ReadPair(s, a[..6]);
      var next := if step.Updated? then step.settings else s;
      ApplyPairsAppend(next, a[6..], b);
    } else {
      assert a + b == b;
    }
  }

  /** One entry with a legal value stores exactly that value. */
  lemma ApplyEntry(s: Settings, id: Identifier, v: U32)
    requires RangeError(id, v).None?
    ensures ApplyPairs(s, Entry(id, v)) == ApplyResult(Put(s, id, v), None, 6)
  {
    var e := Entry(id, v);
    assert e[..6] == e;
    assert e[..2] == BE16(Code(id)) && e[2..] == BE32(v);
    assert FromCode(Code(id)) == Some(id) by {
      match id
      case HeaderTableSize =>
      case EnablePush =>
      case MaxConcurrentStreams =>
      case InitialWindowSize =>
      case MaxFrameSize =>
      case MaxHeaderListSize =>
    }
    assert e[6..] == [];
  }

  /** Two stores of different settings commute. */
  lemma PutCommutes(s: Settings, a: Identifier, x: U32, b: Identifier, y: U32)
    requires a != b
    ensures Put(Put(s, a, x), b, y) == Put(Put(s, b, y), a, x)
  {
    Extensionality(Put(Put(s, a, x), b, y), Put(Put(s, b, y), a, x));
  }

  /**
   * Legal pairs for two different settings may arrive in either order: the
   * reader reads all 12 bytes, raises nothing and stores the same table.
   */
  lemma ApplyPairsSwap(s: Settings, a: Identifier, x: U32, b: Identifier, y: U32)
    requires a != b && RangeError(a, x).None? && RangeError(b, y).None?
    ensures ApplyPairs(s, Entry(a, x) + Entry(b, y)) == ApplyPairs(s, Entry(b, y) + Entry(a, x))
    ensures ApplyPairs(s, Entry(a, x) + Entry(b, y)) == ApplyResult(Put(Put(s, a, x), b, y), None, 12)
  {
    ApplyEntry(s, a, x);
    ApplyEntry(s, b, y);
    ApplyEntry(Put(s, a, x), b, y);
    ApplyEntry(Put(s, b, y), a, x);
    ApplyPairsAppend(s, Entry(a, x), Entry(b, y));
    ApplyPairsAppend(s, Entry(b, y), Entry(a, x));
    PutCommutes(s, a, x, b, y);
  }

  /** The defaults with the first n settings of ORDER taken from s. */
  function Merge(defaults: Settings, s: Settings, n: nat): Settings
    requires n <= |ORDER|
  {
    if n == 0 then defaults
    else Put(Merge(defaults, s, n - 1), ORDER[n - 1], Get(s, ORDER[n - 1]))
  }

  lemma {:induction false} MergeAt(defaults: Settings, s: Settings, n: nat, i: nat)
    requires n <= |ORDER| && i < |ORDER|
    ensures Get(Merge(defaults, s, n), ORDER[i]) == if i < n then Get(s, ORDER[i]) else Get(defaults, ORDER[i])
  {
    if n > 0 {
      MergeAt(defaults, s, n - 1, i);
    }
  }

  /** Reading the first n entries back onto the defaults yields Merge. */
  lemma {:induction false} ApplyEntries(s: Settings, defaults: Settings, n: nat)
    requires n <= |ORDER| && Valid(s)
    ensures ApplyPairs(defaults, Entries(s, defaults, n))
         == ApplyResult(Merge(defaults, s, n), None, |Entries(s, defaults, n)|)
  {
    if n > 0 {
      ApplyEntries(s, defaults, n - 1);
      if Differs(s, defaults, n - 1) {
        assert RangeError(ORDER[n - 1], Get(s, ORDER[n - 1])).None?;
        ApplyDifferingEntry(s, defaults, n);
      } else {
        ApplyEqualEntry(s, defaults, n);
      }
    }
  }

  /** The step of ApplyEntries for an entry that is written. */
  lemma ApplyDifferingEntry(s: Settings, defaults: Settings, n: nat)
    requires 0 < n <= |ORDER| && Differs(s, defaults, n - 1)
    requires RangeError(ORDER[n - 1], Get(s, ORDER[n - 1])).None?
    requires ApplyPairs(defaults, Entries(s, defaults, n - 1))
          == ApplyResult(Merge(defaults, s, n - 1), None, |Entries(s, defaults, n - 1)|)
    ensures ApplyPairs(defaults, Entries(s, defaults, n))
         == ApplyResult(Merge(defaults, s, n), None, |Entries(s, defaults, n)|)
  {
    var prev, m, id := Entries(s, defaults, n - 1), Merge(defaults, s, n - 1), ORDER[n - 1];
    var v := Get(s, id);
    ApplyNextEntry(defaults, prev, m, id, v);
    assert Entries(s, defaults, n) == prev + Entry(id, v);
  }

  /** The step of ApplyEntries for an entry that is left out because it equals the default. */
  lemma ApplyEqualEntry(s: Settings, defaults: Settings, n: nat)
    requires 0 < n <= |ORDER| && !Differs(s, defaults, n - 1)
    requires ApplyPairs(defaults, Entries(s, defaults, n - 1))
          == ApplyResult(Merge(defaults, s, n - 1), None, |Entries(s, defaults, n - 1)|)
    ensures ApplyPairs(defaults, Entries(s, defaults, n))
         == ApplyResult(Merge(defaults, s, n), None, |Entries(s, defaults, n)|)
  {
    var m, id := Merge(defaults, s, n - 1), ORDER[n - 1];
    MergeAt(defaults, s, n - 1, n - 1);
    PutSame(m, id, Get(s, id));
    assert Entries(s, defaults, n) == Entries(s, defaults, n - 1);
  }

  /** One more legal entry after a prefix that was read without error. */
  lemma ApplyNextEntry(d: Settings, prev: seq<Byte>, m: Settings, id: Identifier, v: U32)
    requires |prev| % 6 == 0 && RangeError(id, v).None?
    requires ApplyPairs(d, prev) == ApplyResult(m, None, |prev|)
    ensures ApplyPairs(d, prev + Entry(id, v)) == ApplyResult(Put(m, id, v), None, |prev| + 6)
  {
    ApplyPairsAppend(d, prev, Entry(id, v));
    ApplyEntry(m, id, v);
  }

  /** Storing the value a table already holds changes nothing. */
  lemma PutSame(m: Settings, id: Identifier, v: U32)
    requires Get(m, id) == v
    ensures Put(m, id, v) == m
  {
    var put := Put(m, id, v);
    forall o ensures Get(put, o) == Get(m, o) {}
    Extensionality(put, m);
  }

  /**
   * Round trip: a legal table advertised against some defaults is recovered
   * exactly when the payload is read back onto those defaults.
   */
  lemma SettingsRoundTrip(s: Settings, defaults: Settings)
    requires Valid(s)
    ensures ApplyPairs(defaults, SettingsPayload(s, defaults)) == ApplyResult(s, None, |SettingsPayload(s, defaults)|)
  {
    ApplyEntries(s, defaults, |ORDER|);
    var m := Merge(defaults, s, |ORDER|);
    forall id ensures Get(m, id) == Get(s, id) {
      MergeAt(defaults, s, |ORDER|, Position(id));
    }
    Extensionality(m, s);
  }

}
