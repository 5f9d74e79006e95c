/** Protocol keys `namespace:type`, and the NUL-separated lists that advertise them. */
module Keys {
  import opened Common

  /** Position of the first `c` in `s`, as `str::find`. */
  function Find(s: string, c: char): (r: Option<nat>)
    ensures r.Some? ==> r.value < |s| && s[r.value] == c && c !in s[..r.value]
    ensures r.None? ==> c !in s
  {
    if s == [] then None
    else if s[0] == c then Some(0)
    else
      match Find(s[1..], c)
      case None => None
      case Some(i) => assert s[..i + 1] == [s[0]] + s[1..][..i]; Some(i + 1)
  }

  lemma {:induction false} FindIs(s: string, c: char, i: nat)
    requires i < |s| && s[i] == c && c !in s[..i]
    ensures Find(s, c) == Some(i)
  {
    if i == 0 {
    } else {
      assert s[..i][0] == s[0] && s[1..][..i - 1] == s[..i][1..];
      FindIs(s[1..], c, i - 1);
    }
  }

  function Key(namespace: string, requestType: string): string {
    namespace + ":" + requestType
  }

  /** A key cut at its first colon: both `split_key` of the guest and `split_type_str` of the wire
      format. There is none to cut at exactly when the key has no colon, and joining undoes the cut. */
  function SplitKey(key: string): (r: Option<(string, string)>)
    ensures r.Some? <==> ':' in key
    ensures r.Some? ==> Key(r.value.0, r.value.1) == key && ':' !in r.value.0
  {
    match Find(key, ':')
    case None => None
    case Some(i) => Some((key[..i], key[i + 1..]))
  }

  /** Cutting undoes joining exactly for namespaces without a colon. */
  lemma SplitOfKey(namespace: string, requestType: string)
    ensures SplitKey(Key(namespace, requestType)).Some?
    ensures SplitKey(Key(namespace, requestType)) == Some((namespace, requestType)) <==> ':' !in namespace
  {
    var key := Key(namespace, requestType);
    assert key[|namespace|] == ':';
    if ':' !in namespace {
      assert key[..|namespace|] == namespace;
      FindIs(key, ':', |namespace|);
      assert key[|namespace| + 1..] == requestType;
    }
  }

  /** `[T]::join` with a one-character separator. */
  function Join(parts: seq<string>, sep: char): string {
    if parts == [] then []
    else if |parts| == 1 then parts[0]
    else parts[0] + [sep] + Join(parts[1..], sep)
  }

  /** `str::split` at a one-character separator. */
  function Split(s: string, sep: char): (parts: seq<string>)
    ensures parts != []
    ensures forall p :: p in parts ==> sep !in p
    ensures Join(parts, sep) == s
    decreases |s|
  {
    match Find(s, sep)
    case None => [s]
    case Some(i) =>
      assert s == s[..i] + [sep] + s[i + 1..];
      var rest := Split(s[i + 1..], sep);
      assert ([s[..i]] + rest)[1..] == rest;
      [s[..i]] + rest
  }

  lemma {:induction false} SplitOfJoinFree(parts: seq<string>, sep: char)
    requires parts != [] && forall p :: p in parts ==> sep !in p
    ensures Split(Join(parts, sep), sep) == parts
  {
    var s := Join(parts, sep);
    if |parts| == 1 {
      assert sep !in s;
    } else {
      var n := |parts[0]|;
      assert s[..n] == parts[0] && s[n] == sep;
      FindIs(s, sep, n);
      assert s[n + 1..] == Join(parts[1..], sep);
      SplitOfJoinFree(parts[1..], sep);
    }
  }

  /** A non-empty list comes back from its joined form exactly when no element holds the separator. */
  lemma SplitOfJoin(parts: seq<string>, sep: char)
    requires parts != []
    ensures Split(Join(parts, sep), sep) == parts <==> forall p :: p in parts ==> sep !in p
  {
    if forall p :: p in parts ==> sep !in p {
      SplitOfJoinFree(parts, sep);
    }
  }
}
