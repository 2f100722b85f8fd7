/** app/libs/helper.py: random codes and the client address of a request. */
module Helper {
  import opened Wrappers
  import opened Strings

  /** One draw of `secrets.choice` over the 62 letters and digits. */
  type AlphabetIndex = i: int | 0 <= i < 62

  predicate IsAsciiAlphanumeric(c: char)
  {
    'a' <= c <= 'z' || 'A' <= c <= 'Z' || '0' <= c <= '9'
  }

  /** The i-th character of `string.ascii_letters + string.digits` ("a".."z", "A".."Z", "0".."9"). */
  function AlphabetChar(i: AlphabetIndex): (c: char)
    ensures IsAsciiAlphanumeric(c)
  {
    if i < 26 then ('a' as int + i) as char
    else if i < 52 then ('A' as int + (i - 26)) as char
    else ('0' as int + (i - 52)) as char
  }

  /** `string.ascii_letters + string.digits`. */
  const AsciiLettersDigits: string := seq(62, i requires 0 <= i < 62 => AlphabetChar(i))

  lemma AlphabetShape()
    ensures |AsciiLettersDigits| == 62
    ensures AsciiLettersDigits[0] == 'a' && AsciiLettersDigits[26] == 'A' && AsciiLettersDigits[52] == '0'
    ensures AsciiLettersDigits[25] == 'z' && AsciiLettersDigits[51] == 'Z' && AsciiLettersDigits[61] == '9'
  {
  }

  /** How many times `for i in range(n)` runs. */
  function RangeLength(n: int): nat
  {
    if n > 0 then n else 0
  }

  /**
   * `generate_string(n)`: one character per loop round, the i-th taken from the
   * i-th random draw.
   */
  method GenerateString(n: int, draws: seq<AlphabetIndex>) returns (result: string)
    requires |draws| >= RangeLength(n)
    ensures |result| == RangeLength(n)
    ensures forall i :: 0 <= i < |result| ==> result[i] == AsciiLettersDigits[draws[i]]
    ensures forall i :: 0 <= i < |result| ==> IsAsciiAlphanumeric(result[i])
  {
    result := "";
    var i := 0;
    while i < n
      invariant 0 <= i <= RangeLength(n)
      invariant |result| == i
      invariant forall k :: 0 <= k < i ==> result[k] == AsciiLettersDigits[draws[k]]
      invariant forall k :: 0 <= k < i ==> IsAsciiAlphanumeric(result[k])
    {
      result := result + [AsciiLettersDigits[draws[i]]];
      i := i + 1;
    }
  }

  /** The request headers in arrival order, and the peer address (`None` when unknown). */
  datatype Request = Request(headers: seq<(string, string)>, remoteAddr: Option<string>)

  /** Header names compare without regard to (ASCII) case. */
  predicate SameHeaderName(a: string, b: string)
  {
    Lower(a) == Lower(b)
  }

  /** `headers.getlist(name)`: the values under that name, in order (see `HeaderValuesComplete`). */
  function HeaderValues(headers: seq<(string, string)>, name: string): (vs: seq<string>)
    ensures |vs| <= |headers|
    ensures forall v :: v in vs ==> exists i :: 0 <= i < |headers| && SameHeaderName(headers[i].0, name) && headers[i].1 == v
  {
    if |headers| == 0 then []
    else
      var rest := HeaderValues(headers[1..], name);
      assert forall v :: v in rest ==> exists i :: 0 <= i < |headers| && SameHeaderName(headers[i].0, name) && headers[i].1 == v by {
        forall v | v in rest
          ensures exists i :: 0 <= i < |headers| && SameHeaderName(headers[i].0, name) && headers[i].1 == v
        {
          var j :| 0 <= j < |headers[1..]| && SameHeaderName(headers[1..][j].0, name) && headers[1..][j].1 == v;
          assert headers[j + 1] == headers[1..][j];
        }
      }
      if SameHeaderName(headers[0].0, name) then [headers[0].1] + rest else rest
  }

  /** The values missing from `getlist` are none, and its first is the first match's. */
  lemma {:induction false} HeaderValuesComplete(headers: seq<(string, string)>, name: string)
    ensures forall i :: 0 <= i < |headers| && SameHeaderName(headers[i].0, name) ==> headers[i].1 in HeaderValues(headers, name)
    ensures HeaderValues(headers, name) != [] ==>
              exists i :: 0 <= i < |headers| && SameHeaderName(headers[i].0, name)
                          && HeaderValues(headers, name)[0] == headers[i].1
                          && forall k :: 0 <= k < i ==> !SameHeaderName(headers[k].0, name)
    decreases |headers|
  {
    if |headers| > 0 {
      var tail := headers[1..];
      HeaderValuesComplete(tail, name);
      assert forall i :: 1 <= i < |headers| ==> headers[i] == tail[i - 1];
      var vs := HeaderValues(headers, name);
      if !SameHeaderName(headers[0].0, name) && vs != [] {
        var j :| 0 <= j < |tail| && SameHeaderName(tail[j].0, name) && vs[0] == tail[j].1
                 && forall k :: 0 <= k < j ==> !SameHeaderName(tail[k].0, name);
        assert SameHeaderName(headers[j + 1].0, name) && vs[0] == headers[j + 1].1;
      }
    }
  }

  /** `headers.get(name)`: the value of the first header with that name, if any. */
  function HeaderGet(headers: seq<(string, string)>, name: string): (r: Option<string>)
    ensures r.Some? <==> HeaderValues(headers, name) != []
    ensures r.Some? ==> r.value == HeaderValues(headers, name)[0]
    ensures r.Some? <==> exists i :: 0 <= i < |headers| && SameHeaderName(headers[i].0, name)
    ensures r.Some? ==> exists i :: 0 <= i < |headers| && SameHeaderName(headers[i].0, name) && r.value == headers[i].1
                                    && forall k :: 0 <= k < i ==> !SameHeaderName(headers[k].0, name)
  {
    HeaderValuesComplete(headers, name);
    var vs := HeaderValues(headers, name);
    if vs == [] then None else Some(vs[0])
  }

  /**
   * `extract_remote_ip`: a non-empty `Remoteip` header wins; otherwise the first
   * `X-Forwarded-For` value (even an empty one); otherwise the peer address.
   */
  function ExtractRemoteIp(request: Request): (ip: Option<string>)
    ensures Truthy(HeaderGet(request.headers, "Remoteip")) ==> ip == HeaderGet(request.headers, "Remoteip")
    ensures !Truthy(HeaderGet(request.headers, "Remoteip")) && HeaderValues(request.headers, "X-Forwarded-For") != []
            ==> ip == Some(HeaderValues(request.headers, "X-Forwarded-For")[0])
    ensures !Truthy(HeaderGet(request.headers, "Remoteip")) && HeaderValues(request.headers, "X-Forwarded-For") == []
            ==> ip == request.remoteAddr
  {
    var remote := HeaderGet(request.headers, "Remoteip");
    var forwarded := HeaderValues(request.headers, "X-Forwarded-For");
    if Truthy(remote) then remote
    else if forwarded != [] then Some(forwarded[0])
    else request.remoteAddr
  }

  /** The address comes from the request: a header it carried, or its peer address. */
  lemma ExtractRemoteIpComesFromRequest(request: Request)
    ensures var ip := ExtractRemoteIp(request);
            ip == request.remoteAddr
            || (ip.Some? && (exists i :: 0 <= i < |request.headers| && request.headers[i].1 == ip.value
                               && (SameHeaderName(request.headers[i].0, "Remoteip")
                                   || SameHeaderName(request.headers[i].0, "X-Forwarded-For"))))
  {
    var remote := HeaderValues(request.headers, "Remoteip");
    var forwarded := HeaderValues(request.headers, "X-Forwarded-For");
    if remote != [] {
      assert remote[0] in remote;
    }
    if forwarded != [] {
      assert forwarded[0] in forwarded;
    }
  }
}
