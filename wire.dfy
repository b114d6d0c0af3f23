/** ElasticSearch's transport streams (StreamOutput and StreamInput) as sequences of tokens: a
    writeTo appends tokens, a readFrom consumes them from the front. Reading a value the stream
    does not hold next fails with EndOfStream, as the binary stream would on a short or garbled
    input. */
module Wire {
  import opened Wrappers

  /** One primitive value written by StreamOutput. */
  datatype Token =
    | TBool(b: bool)      // writeBoolean
    | TString(s: string)  // writeString
    | TVInt(n: nat)       // writeVInt, used for array lengths
    | TLong(l: int)       // writeLong

  /** What a read leaves: the value read and the rest of the stream. */
  type Read<T> = Result<(T, seq<Token>)>

  /** A read whose value is prefixed with head. */
  function Prefixed<T>(head: seq<T>, r: Read<seq<T>>): Read<seq<T>>
  {
    match r
    case Err(e) => Err(e)
    case Ok((tail, rest)) => Ok((head + tail, rest))
  }

  lemma PrefixedAppend<T>(head: seq<T>, x: T, r: Read<seq<T>>)
    ensures Prefixed(head, Prefixed([x], r)) == Prefixed(head + [x], r)
  {
    if r.Ok? {
      assert head + ([x] + r.value.0) == head + [x] + r.value.0;
    }
  }

  lemma PrefixedEmpty<T>(r: Read<seq<T>>)
    ensures Prefixed([], r) == r
  {
    if r.Ok? {
      assert [] + r.value.0 == r.value.0;
    }
  }

  /** A read method left its result and its stream as the read function describes: on success the
      value and the rest of the stream, on failure the same error. */
  ghost predicate Follows<T>(r: Result<T>, remaining: seq<Token>, read: Read<T>)
  {
    match read
    case Ok((v, rest)) => r == Ok(v) && remaining == rest
    case Err(e) => r == Err(e)
  }

  function ReadBool(input: seq<Token>): Read<bool>
  {
    if |input| > 0 && input[0].TBool? then Ok((input[0].b, input[1..])) else Err(EndOfStream)
  }

  function ReadString(input: seq<Token>): Read<string>
  {
    if |input| > 0 && input[0].TString? then Ok((input[0].s, input[1..])) else Err(EndOfStream)
  }

  function ReadVInt(input: seq<Token>): Read<nat>
  {
    if |input| > 0 && input[0].TVInt? then Ok((input[0].n, input[1..])) else Err(EndOfStream)
  }

  function ReadLong(input: seq<Token>): Read<int>
  {
    if |input| > 0 && input[0].TLong? then Ok((input[0].l, input[1..])) else Err(EndOfStream)
  }

  /** The strings of an array, one writeString each. */
  function Strings(a: seq<string>): (r: seq<Token>)
    ensures |r| == |a|
  {
    if |a| == 0 then [] else [TString(a[0])] + Strings(a[1..])
  }

  /** writeStringArray: the length, then the strings. */
  function StringArray(a: seq<string>): seq<Token>
  {
    [TVInt(|a|)] + Strings(a)
  }

  /** n strings, one readString each. */
  function ReadStrings(n: nat, input: seq<Token>): (r: Read<seq<string>>)
    ensures r.Ok? ==> |r.value.0| == n
  {
    if n == 0 then Ok(([], input))
    else
      match ReadString(input)
      case Err(e) => Err(e)
      case Ok((s, rest)) => Prefixed([s], ReadStrings(n - 1, rest))
  }

  /** readStringArray: the length, then that many strings. */
  function ReadStringArray(input: seq<Token>): Read<seq<string>>
  {
    match ReadVInt(input)
    case Err(e) => Err(e)
    case Ok((n, rest)) => ReadStrings(n, rest)
  }

  /** Reading back the strings written for an array gives the array and leaves what followed. */
  lemma {:induction false} StringsRoundTrip(a: seq<string>, rest: seq<Token>)
    ensures ReadStrings(|a|, Strings(a) + rest) == Ok((a, rest))
  {
    if |a| > 0 {
      var input := Strings(a) + rest;
      assert input == [TString(a[0])] + (Strings(a[1..]) + rest);
      assert input[0] == TString(a[0]) && input[1..] == Strings(a[1..]) + rest;
      StringsRoundTrip(a[1..], rest);
      assert [a[0]] + a[1..] == a;
    } else {
      assert Strings(a) + rest == rest;
    }
  }

  /** readStringArray undoes writeStringArray. */
  lemma StringArrayRoundTrip(a: seq<string>, rest: seq<Token>)
    ensures ReadStringArray(StringArray(a) + rest) == Ok((a, rest))
  {
    assert StringArray(a) + rest == [TVInt(|a|)] + (Strings(a) + rest);
    StringsRoundTrip(a, rest);
  }

  /** A cluster node, as far as the management messages use it: its id. */
  datatype DiscoveryNode = DiscoveryNode(id: string)

  /** DiscoveryNode.writeTo, reduced to the node id. */
  function NodeTokens(node: DiscoveryNode): seq<Token>
  {
    [TString(node.id)]
  }

  /** DiscoveryNode.readNode. */
  function ReadNode(input: seq<Token>): Read<DiscoveryNode>
  {
    match ReadString(input)
    case Err(e) => Err(e)
    case Ok((id, rest)) => Ok((DiscoveryNode(id), rest))
  }

  /** Strings of a prefix grow by one string token per element. */
  lemma StringsSnoc(a: seq<string>, i: nat)
    requires i < |a|
    ensures Strings(a[..i + 1]) == Strings(a[..i]) + [TString(a[i])]
  {
    if i > 0 {
      assert a[..i + 1][1..] == a[1..][..i];
      assert a[..i][1..] == a[1..][..i - 1];
      StringsSnoc(a[1..], i - 1);
    }
  }

  /** Appending parts one after another appends their concatenation. */
  lemma AppendAssoc(a: seq<Token>, b: seq<Token>, c: seq<Token>, d: seq<Token>)
    ensures a + b + c + d == a + (b + c + d)
  {
  }

  /** ElasticSearch's StreamOutput: the tokens written so far. */
  class StreamOutput {
    var tokens: seq<Token>

    constructor ()
      ensures tokens == []
    {
      tokens := [];
    }

    method WriteBoolean(b: bool)
      modifies this
      ensures tokens == old(tokens) + [TBool(b)]
    {
      tokens := tokens + [TBool(b)];
    }

    method WriteString(s: string)
      modifies this
      ensures tokens == old(tokens) + [TString(s)]
    {
      tokens := tokens + [TString(s)];
    }

    method WriteVInt(n: nat)
      modifies this
      ensures tokens == old(tokens) + [TVInt(n)]
    {
      tokens := tokens + [TVInt(n)];
    }

    method WriteLong(l: int)
      modifies this
      ensures tokens == old(tokens) + [TLong(l)]
    {
      tokens := tokens + [TLong(l)];
    }

    /** writeStringArray: the length, then each string in order. */
    method WriteStringArray(a: seq<string>)
      modifies this
      ensures tokens == old(tokens) + StringArray(a)
    {
      WriteVInt(|a|);
      var i := 0;
      while i < |a|
        invariant 0 <= i <= |a|
        invariant tokens == old(tokens) + [TVInt(|a|)] + Strings(a[..i])
      {
        WriteString(a[i]);
        StringsSnoc(a, i);
        i := i + 1;
      }
      assert a[..|a|] == a;
    }
  }

  /** ElasticSearch's StreamInput: the tokens not read yet. */
  class StreamInput {
    var remaining: seq<Token>

    constructor (tokens: seq<Token>)
      ensures remaining == tokens
    {
      remaining := tokens;
    }

    method ReadBoolean() returns (r: Result<bool>)
      modifies this
      ensures Follows(r, remaining, ReadBool(old(remaining)))
    {
      if |remaining| > 0 && remaining[0].TBool? {
        r := Ok(remaining[0].b);
        remaining := remaining[1..];
      } else {
        r := Err(EndOfStream);
      }
    }

    method ReadStringToken() returns (r: Result<string>)
      modifies this
      ensures Follows(r, remaining, ReadString(old(remaining)))
    {
      if |remaining| > 0 && remaining[0].TString? {
        r := Ok(remaining[0].s);
        remaining := remaining[1..];
      } else {
        r := Err(EndOfStream);
      }
    }

    method ReadVIntToken() returns (r: Result<nat>)
      modifies this
      ensures Follows(r, remaining, ReadVInt(old(remaining)))
    {
      if |remaining| > 0 && remaining[0].TVInt? {
        r := Ok(remaining[0].n);
        remaining := remaining[1..];
      } else {
        r := Err(EndOfStream);
      }
    }

    method ReadLongToken() returns (r: Result<int>)
      modifies this
      ensures Follows(r, remaining, ReadLong(old(remaining)))
    {
      if |remaining| > 0 && remaining[0].TLong? {
        r := Ok(remaining[0].l);
        remaining := remaining[1..];
      } else {
        r := Err(EndOfStream);
      }
    }

    /** readStringArray: the length, then that many strings. */
    method ReadStringArrayTokens() returns (r: Result<seq<string>>)
      modifies this
      ensures Follows(r, remaining, ReadStringArray(old(remaining)))
    {
      var count := ReadVIntToken();
      if count.Err? {
        return Err(count.error);
      }
      var n := count.value;
      var a: seq<string> := [];
      PrefixedEmpty(ReadStrings(n, remaining));
      while |a| < n
        invariant |a| <= n
        invariant ReadStringArray(old(remaining)) == Prefixed(a, ReadStrings(n - |a|, remaining))
      {
        var s := ReadStringToken();
        if s.Err? {
          return Err(s.error);
        }
        PrefixedAppend(a, s.value, ReadStrings(n - |a| - 1, remaining));
        a := a + [s.value];
      }
      assert ReadStrings(0, remaining) == Ok(([], remaining));
      assert a + [] == a;
      r := Ok(a);
    }
  }

  /** DiscoveryNode.writeTo, reduced to the node id. */
  method WriteNode(node: DiscoveryNode, out: StreamOutput)
    modifies out
    ensures out.tokens == old(out.tokens) + NodeTokens(node)
  {
    out.WriteString(node.id);
  }

  /** DiscoveryNode.readNode, reduced to the node id. */
  method ReadNodeFrom(input: StreamInput) returns (r: Result<DiscoveryNode>)
    modifies input
    ensures Follows(r, input.remaining, ReadNode(old(input.remaining)))
  {
    var id := input.ReadStringToken();
    if id.Err? {
      return Err(id.error);
    }
    r := Ok(DiscoveryNode(id.value));
  }
}
