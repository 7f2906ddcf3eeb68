/** The bounded scan over numbered relationship definitions that both
    internal/config/config.go (`populateRelationships`) and
    internal/app/tomolink/tomolink.go (`Router`) perform against the loaded
    configuration. The configuration itself is an abstract lookup. */
module ConfigLookup {
  import opened Wrappers

  /** goconfig's `Cfg.String(key)`: the setting's value, or an error message. */
  type Lookup = string -> Result<string, string>

  /** The message goconfig gives for a key that has no value; the scan
      recognises "not set" by comparing against it. */
  function NotSetMessage(key: string): string {
    "Required setting '" + key + "' not set"
  }

  function Digit(d: nat): char
    requires d < 10
  {
    "0123456789"[d]
  }

  /** The number a string of decimal digits denotes, most significant digit
      first. */
  function DigitsValue(s: string): nat
    requires forall i :: 0 <= i < |s| ==> '0' <= s[i] <= '9'
  {
    if s == [] then 0
    else DigitsValue(s[..|s| - 1]) * 10 + ((s[|s| - 1] as int) - ('0' as int))
  }

  /** Decimal rendering of a natural number, as `%d` prints it. */
  function DecimalString(n: nat): (s: string)
    ensures |s| >= 1
    ensures forall i :: 0 <= i < |s| ==> '0' <= s[i] <= '9'
    ensures n < 10 ==> s == [Digit(n)]
  {
    if n < 10 then [Digit(n)] else DecimalString(n / 10) + [Digit(n % 10)]
  }

  /** The rendering denotes `n` and has no leading zero. */
  lemma {:induction false} DecimalStringDenotes(n: nat)
    ensures DigitsValue(DecimalString(n)) == n
    ensures |DecimalString(n)| > 1 ==> DecimalString(n)[0] != '0'
  {
    if n < 10 {
      DigitDenotes(n);
    } else {
      var front := DecimalString(n / 10);
      DecimalStringDenotes(n / 10);
      DigitDenotes(n % 10);
      AppendDigit(front, Digit(n % 10));
      assert DecimalString(n) == front + [Digit(n % 10)];
      assert DecimalString(n)[0] == front[0];
      assert n == (n / 10) * 10 + n % 10;
    }
  }

  /** Appending a digit shifts the value one decimal place. */
  lemma AppendDigit(s: string, c: char)
    requires forall i :: 0 <= i < |s| ==> '0' <= s[i] <= '9'
    requires '0' <= c <= '9'
    ensures DigitsValue(s + [c]) == DigitsValue(s) * 10 + ((c as int) - ('0' as int))
  {
    assert (s + [c])[..|s|] == s;
  }

  lemma DigitDenotes(d: nat)
    requires d < 10
    ensures (Digit(d) as int) - ('0' as int) == d
  {
  }

  function NameKey(prefix: string, i: nat): string {
    prefix + DecimalString(i) + ".name"
  }

  function KindKey(prefix: string, i: nat): string {
    prefix + DecimalString(i) + ".type"
  }

  /** A configured relationship: its name and its kind (the `type` setting). */
  datatype Definition = Definition(name: string, kind: string)

  /** What the scan finds at one index: a complete definition, a gap (the
      name or the kind is not set), or any other lookup error. */
  datatype Probe = Found(definition: Definition) | Gap | Abort(err: string)

  /** The name is looked up first; the kind only when the name is set. */
  function ProbeAt(lookup: Lookup, prefix: string, i: nat): (p: Probe)
    ensures p.Found? <==> lookup(NameKey(prefix, i)).Success? && lookup(KindKey(prefix, i)).Success?
    ensures p.Found? ==> p.definition == Definition(lookup(NameKey(prefix, i)).value, lookup(KindKey(prefix, i)).value)
    ensures p.Gap? <==>
      || lookup(NameKey(prefix, i)) == Failure(NotSetMessage(NameKey(prefix, i)))
      || (lookup(NameKey(prefix, i)).Success? && lookup(KindKey(prefix, i)) == Failure(NotSetMessage(KindKey(prefix, i))))
    ensures p.Abort? ==> p.err == (if lookup(NameKey(prefix, i)).Failure? then lookup(NameKey(prefix, i)).error
                                   else lookup(KindKey(prefix, i)).error)
  {
    match lookup(NameKey(prefix, i))
    case Failure(e) =>
      if e == NotSetMessage(NameKey(prefix, i)) then Gap else Abort(e)
    case Success(name) =>
      match lookup(KindKey(prefix, i))
      case Failure(e) =>
        if e == NotSetMessage(KindKey(prefix, i)) then Gap else Abort(e)
      case Success(kind) =>
        Found(Definition(name, kind))
  }

  /** The definitions read before the scan stopped, and the error that
      aborted it, if any. */
  datatype Scan = Scan(definitions: seq<Definition>, err: Option<string>)

  /** The scan from index `i` to `limit` ran as the source's loop does: the
      definitions are those found at consecutive indices from `i`, and the scan
      ended at the bound, at a gap (no error) or at another lookup error
      (which it reports). */
  predicate ScannedFrom(lookup: Lookup, prefix: string, limit: nat, i: nat, s: Scan)
    requires i <= limit
  {
    && |s.definitions| <= limit - i
    && (forall k :: i <= k < i + |s.definitions| ==> ProbeAt(lookup, prefix, k) == Found(s.definitions[k - i]))
    && (i + |s.definitions| == limit ==> s.err.None?)
    && (i + |s.definitions| < limit ==>
          var stop := ProbeAt(lookup, prefix, i + |s.definitions|);
          || (stop.Gap? && s.err.None?)
          || (stop.Abort? && s.err == Some(stop.err)))
  }

  function ScanFrom(lookup: Lookup, prefix: string, limit: nat, i: nat): (s: Scan)
    requires i <= limit
    ensures ScannedFrom(lookup, prefix, limit, i, s)
    decreases limit - i
  {
    if i == limit then Scan([], None)
    else
      var p := ProbeAt(lookup, prefix, i);
      if p.Gap? then Scan([], None)
      else if p.Abort? then Scan([], Some(p.err))
      else
        var rest := ScanFrom(lookup, prefix, limit, i + 1);
        ScanStep(lookup, prefix, limit, i, rest);
        Scan([p.definition] + rest.definitions, rest.err)
  }

  /** A definition found at `i`, followed by a scan from `i + 1`, is a scan
      from `i`. */
  lemma ScanStep(lookup: Lookup, prefix: string, limit: nat, i: nat, rest: Scan)
    requires i < limit && ProbeAt(lookup, prefix, i).Found?
    requires ScannedFrom(lookup, prefix, limit, i + 1, rest)
    ensures ScannedFrom(lookup, prefix, limit, i,
      Scan([ProbeAt(lookup, prefix, i).definition] + rest.definitions, rest.err))
  {
    var s := Scan([ProbeAt(lookup, prefix, i).definition] + rest.definitions, rest.err);
    forall k | i <= k < i + |s.definitions|
      ensures ProbeAt(lookup, prefix, k) == Found(s.definitions[k - i])
    {
      if k > i {
        assert s.definitions[k - i] == rest.definitions[k - (i + 1)];
      }
    }
  }

  /** The scan over indices 0 .. limit-1. */
  function ScanDefinitions(lookup: Lookup, prefix: string, limit: nat): (s: Scan)
    ensures ScannedFrom(lookup, prefix, limit, 0, s)
  {
    ScanFrom(lookup, prefix, limit, 0)
  }

  /** The scan reads nothing but the name and kind keys of indices below the
      bound: two configurations that agree on those keys scan alike. */
  lemma {:induction false} ScanReadsOnlyIndexedKeys(l1: Lookup, l2: Lookup, prefix: string, limit: nat, i: nat)
    requires i <= limit
    requires forall j :: i <= j < limit ==> l1(NameKey(prefix, j)) == l2(NameKey(prefix, j))
    requires forall j :: i <= j < limit ==> l1(KindKey(prefix, j)) == l2(KindKey(prefix, j))
    ensures ScanFrom(l1, prefix, limit, i) == ScanFrom(l2, prefix, limit, i)
    decreases limit - i
  {
    if i < limit {
      assert l1(NameKey(prefix, i)) == l2(NameKey(prefix, i));
      assert l1(KindKey(prefix, i)) == l2(KindKey(prefix, i));
      assert ProbeAt(l1, prefix, i) == ProbeAt(l2, prefix, i);
      ScanReadsOnlyIndexedKeys(l1, l2, prefix, limit, i + 1);
    }
  }
}
