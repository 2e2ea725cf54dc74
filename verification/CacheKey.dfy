/**
 The cache of model answers (internal/container/modelcache.go): the parts of a request,
 each with its length, make a stream that can be taken apart again; so no two requests
 share a key, and the cache never answers one with the answer of another.
 */
module CacheKey {
  import opened Util
  import opened Text
  import opened Decimals
  import opened Sequences

  /** What is hashed for one part: its length as a JSON number, a line break, the part. */
  function Framed(p: string): string {
    Decimal(|p|) + "\n" + p
  }

  function Stream(parts: seq<string>): string {
    if parts == [] then "" else Framed(parts[0]) + Stream(parts[1..])
  }

  /** Takes a stream apart. */
  function Decoded(s: string): Option<seq<string>>
    decreases |s|
  {
    if s == "" then Some([]) else
    var n := DigitRun(s);
    DigitRunIsMaximal(s);
    if n == 0 || n == |s| || s[n] != '\n' then None else
    assert AllDigits(s[..n]);
    var end := n + 1 + Value(s[..n]);
    if end > |s| then None else
    var rest := Decoded(s[end..]);
    if rest.None? then None else Some([s[n + 1..end]] + rest.value)
  }

  lemma {:induction false} RunOfDigits(d: string, rest: string)
    requires AllDigits(d) && rest != "" && !IsDigit(rest[0])
    ensures DigitRun(d + rest) == |d|
  {
    if d == "" {
      assert d + rest == rest;
    } else {
      RunOfDigits(d[1..], rest);
      assert (d + rest)[1..] == d[1..] + rest;
    }
  }

  lemma FrameIsFound(p: string, rest: string)
    ensures var s, n := Framed(p) + rest, |Decimal(|p|)|;
            && DigitRun(s) == n < |s| && s[n] == '\n' && s[..n] == Decimal(|p|)
            && n + 1 + |p| <= |s| && s[n + 1..n + 1 + |p|] == p && s[n + 1 + |p|..] == rest
  {
    var d := Decimal(|p|);
    DecimalIsDigits(|p|);
    RunOfDigits(d, "\n" + p + rest);
    assert Framed(p) + rest == d + ("\n" + p + rest);
  }

  /** The stream can be taken apart again. */
  lemma {:induction false} DecodedStream(parts: seq<string>)
    ensures Decoded(Stream(parts)) == Some(parts)
  {
    if parts != [] {
      var p, rest := parts[0], parts[1..];
      FrameIsFound(p, Stream(rest));
      ValueOfDecimal(|p|);
      DecodedStream(rest);
      assert [p] + rest == parts;
    }
  }

  /** Different lists of parts have different streams, however their bytes run on. */
  lemma StreamIsInjective(parts: seq<string>, parts': seq<string>)
    requires Stream(parts) == Stream(parts')
    ensures parts == parts'
  {
    DecodedStream(parts);
    DecodedStream(parts');
  }

  lemma Appended(s: string, p: string)
    ensures s + Framed(p) == s + Decimal(|p|) + "\n" + p
  {
    Rejoin(s, Decimal(|p|) + "\n", p);
    Rejoin(s, Decimal(|p|), "\n");
  }

  /** The bytes written to the hash, part by part. */
  method WriteParts(parts: seq<string>) returns (s: string)
    ensures s == Stream(parts)
  {
    s := "";
    var i := 0;
    while i < |parts|
      invariant 0 <= i <= |parts|
      invariant s + Stream(parts[i..]) == Stream(parts)
    {
      DropDrop(parts, i, 1);
      Rejoin(s, Framed(parts[i]), Stream(parts[i + 1..]));
      Appended(s, parts[i]);
      s := s + Decimal(|parts[i]|) + "\n" + parts[i];
      i := i + 1;
    }
    Nothing(s);
  }

  // ---------------------------------------------------------------------- the cache

  /** A hash that gives different streams different keys. */
  ghost predicate Injective(hash: string -> string) {
    forall s, t :: hash(s) == hash(t) ==> s == t
  }

  /** An answer the model gave, and the parts of the request it answered. */
  datatype Given<V> = Given(parts: seq<string>, answer: V)

  /** Whatever is stored is an answer that was given to exactly the parts of its key. */
  ghost predicate Faithful<V(!new)>(stored: map<string, V>, hash: string -> string, log: seq<Given<V>>) {
    forall parts :: hash(Stream(parts)) in stored ==> Given(parts, stored[hash(Stream(parts))]) in log
  }

  /** Storing an answer keeps the cache faithful, and so does not storing it. */
  lemma StoringIsFaithful<V(!new)>(stored: map<string, V>, hash: string -> string, log: seq<Given<V>>,
                            parts: seq<string>, v: V)
    requires Injective(hash) && Faithful(stored, hash, log)
    ensures Faithful(stored[hash(Stream(parts)) := v], hash, log + [Given(parts, v)])
    ensures Faithful(stored, hash, log + [Given(parts, v)])
  {
    var stored' := stored[hash(Stream(parts)) := v];
    forall other | hash(Stream(other)) in stored'
      ensures Given(other, stored'[hash(Stream(other))]) in log + [Given(parts, v)]
    {
      if hash(Stream(other)) == hash(Stream(parts)) {
        StreamIsInjective(other, parts);
      }
    }
  }

  class ModelCache<V(!new)> {
    const hash: string -> string
    const model: (nat, seq<string>) -> Option<V>  // its n-th call; None when the call fails
    var stored: map<string, V>
    var calls: nat
    ghost var log: seq<Given<V>>  // the answers of the model, one for each successful call

    ghost predicate Valid()
      reads this
    {
      Injective(hash) && Faithful(stored, hash, log)
    }

    constructor (hash: string -> string, model: (nat, seq<string>) -> Option<V>)
      requires Injective(hash)
      ensures Valid() && this.hash == hash && this.model == model && stored == map[] && calls == 0 && log == []
    {
      this.hash, this.model, stored, calls, log := hash, model, map[], 0, [];
    }

    /** The stored answer, or a new one of the model, which is then stored. A cache that cannot
        be read or written, or holds what cannot be decoded, is as good as none; an answer is
        always one the model gave to exactly this request. */
    method Ask(parts: seq<string>, readable: bool, decodes: bool, writable: bool) returns (out: Option<V>)
      requires Valid()
      modifies this
      ensures Valid() && (out.Some? ==> Given(parts, out.value) in log)
      ensures var key := hash(Stream(parts));
              if readable && decodes && key in old(stored) then
                out == Some(old(stored)[key]) && calls == old(calls) && log == old(log) && stored == old(stored)
              else
                && out == model(old(calls), parts) && calls == old(calls) + 1
                && log == old(log) + (if out.Some? then [Given(parts, out.value)] else [])
                && stored == if out.Some? && writable then old(stored)[key := out.value] else old(stored)
    {
      var s := WriteParts(parts);
      var key := hash(s);
      if readable && key in stored && decodes {
        return Some(stored[key]);
      }
      out := model(calls, parts);
      calls := calls + 1;
      if out.None? {
        assert log + [] == log;
        return;
      }
      StoringIsFaithful(stored, hash, log, parts, out.value);
      log := log + [Given(parts, out.value)];
      if writable {
        stored := stored[key := out.value];
      }
    }
  }
}
