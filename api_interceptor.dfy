/** The `window.fetch` wrapper installed by `setupApiInterceptor`: before a
    request reaches the original fetch, a string URL has its first
    `/api/v3/` turned into `/api/v2/`, and a request that carries a body but
    whose method is missing, `GET` or `HEAD` is turned into a `POST`. */
module ApiInterceptor {
  import opened JsValues

  const OLD_SEGMENT := "/api/v3/"
  const NEW_SEGMENT := "/api/v2/"
  const POST := "POST"

  /** `p` occurs in `s` starting at index `i`. */
  predicate OccursAt(s: string, p: string, i: int) {
    0 <= i && i + |p| <= |s| && s[i..i + |p|] == p
  }

  lemma OccursInTail(s: string, p: string)
    requires |s| > 0
    ensures forall j :: 1 <= j ==> (OccursAt(s, p, j) <==> OccursAt(s[1..], p, j - 1))
  {
    forall j | 1 <= j
      ensures OccursAt(s, p, j) <==> OccursAt(s[1..], p, j - 1)
    {
      if j + |p| <= |s| {
        var here, there := s[j..j + |p|], s[1..][j - 1..j - 1 + |p|];
        forall k | 0 <= k < |p| ensures here[k] == there[k] {
          assert here[k] == s[j + k];
        }
        assert here == there;
      }
    }
  }

  /** `s.indexOf(p)`: the first index at which `p` occurs, or -1. */
  function IndexOf(s: string, p: string): (i: int)
    ensures -1 <= i
    ensures i >= 0 ==> OccursAt(s, p, i)
    ensures forall j :: 0 <= j && (i < 0 || j < i) ==> !OccursAt(s, p, j)
    decreases |s|
  {
    if |p| > |s| then -1
    else if s[..|p|] == p then 0
    else
      OccursInTail(s, p);
      var k := IndexOf(s[1..], p);
      if k < 0 then -1 else k + 1
  }

  /** `s.includes(p)`. */
  function Includes(s: string, p: string): (b: bool)
    ensures b <==> exists j :: OccursAt(s, p, j)
  {
    IndexOf(s, p) >= 0
  }

  /** `s.replace(p, r)` with a string pattern (and a replacement without `$`):
      the first occurrence of `p`, if any, is replaced by `r`. */
  function ReplaceFirst(s: string, p: string, r: string): (t: string)
    ensures !Includes(s, p) ==> t == s
    ensures Includes(s, p) ==> |t| == |s| - |p| + |r|
    ensures Includes(s, p) ==>
              exists i :: OccursAt(s, p, i) && (forall j :: 0 <= j < i ==> !OccursAt(s, p, j)) &&
                          t == s[..i] + r + s[i + |p|..]
  {
    var i := IndexOf(s, p);
    if i < 0 then s else s[..i] + r + s[i + |p|..]
  }

  /** The `input` argument of fetch: a URL string, or a Request/URL object
      (never rewritten, even when its own URL holds `/api/v3/`). */
  datatype FetchInput = Url(url: string) | NonString

  /** A request body: a string (falsy when empty) or an object such as a
      FormData or Blob (always truthy). */
  datatype Body = TextBody(text: string) | ObjectBody

  predicate BodyTruthy(body: Option<Body>) {
    body.Some? && (body.value.TextBody? ==> body.value.text != "")
  }

  /** The input the wrapper forwards. */
  function RewriteInput(input: FetchInput): (r: FetchInput)
    ensures !(input.Url? && Includes(input.url, OLD_SEGMENT)) ==> r == input
    ensures input.Url? && Includes(input.url, OLD_SEGMENT) ==>
              r.Url? && |r.url| == |input.url| &&
              var i := IndexOf(input.url, OLD_SEGMENT);
              r.url[..i] == input.url[..i] &&
              r.url[i..i + |NEW_SEGMENT|] == NEW_SEGMENT &&
              r.url[i + |NEW_SEGMENT|..] == input.url[i + |OLD_SEGMENT|..]
  {
    match input
    case Url(url) =>
      if Includes(url, OLD_SEGMENT) then Url(ReplaceFirst(url, OLD_SEGMENT, NEW_SEGMENT)) else input
    case NonString => input
  }

  /** A bodied request whose method is missing, empty, `GET` or `HEAD`
      (compared case-sensitively). */
  predicate NeedsPost(httpMethod: Option<string>, body: Option<Body>) {
    BodyTruthy(body) && (!Truthy(httpMethod) || httpMethod == Some("GET") || httpMethod == Some("HEAD"))
  }

  /** The method the wrapper leaves in `init`. */
  function FixedMethod(httpMethod: Option<string>, body: Option<Body>): (r: Option<string>)
    ensures NeedsPost(httpMethod, body) ==> r == Some(POST)
    ensures !NeedsPost(httpMethod, body) ==> r == httpMethod
    // the fixed request never needs fixing again
    ensures !NeedsPost(r, body)
  {
    if NeedsPost(httpMethod, body) then Some(POST) else httpMethod
  }

  /** Index facts about `t == s[..i] + r + s[i + |p|..]`. */
  lemma SpliceAt(s: string, p: string, r: string, i: nat, t: string)
    requires OccursAt(s, p, i)
    requires t == s[..i] + r + s[i + |p|..]
    ensures |t| == |s| - |p| + |r|
    ensures forall k :: 0 <= k < i ==> t[k] == s[k]
    ensures forall k :: 0 <= k < |r| ==> t[i + k] == r[k]
    ensures forall k :: i + |r| <= k < |t| ==> t[k] == s[k - |r| + |p|]
  {
    forall k | 0 <= k < i ensures t[k] == s[k] {
      assert t[k] == (s[..i] + r)[k];
    }
    forall k | 0 <= k < |r| ensures t[i + k] == r[k] {
      assert t[i + k] == (s[..i] + r)[i + k];
    }
  }

  /** IndexOf finds exactly the first occurrence. */
  lemma IndexOfFirst(s: string, p: string, i: nat)
    requires OccursAt(s, p, i)
    requires forall j :: 0 <= j < i ==> !OccursAt(s, p, j)
    ensures IndexOf(s, p) == i
  {
  }

  /** After the rewrite, no `/api/v2/` starts before the inserted one, when
      the original URL held none. */
  lemma NoEarlierNewSegment(s: string, i: nat, t: string, j: nat)
    requires OccursAt(s, OLD_SEGMENT, i)
    requires forall m :: !OccursAt(s, NEW_SEGMENT, m)
    requires t == s[..i] + NEW_SEGMENT + s[i + |OLD_SEGMENT|..]
    requires j < i
    ensures !OccursAt(t, NEW_SEGMENT, j)
  {
    SpliceAt(s, OLD_SEGMENT, NEW_SEGMENT, i, t);
    assert !OccursAt(s, NEW_SEGMENT, j);
    var d := i - j;
    if d >= |NEW_SEGMENT| {
      assert t[j..j + |NEW_SEGMENT|] == s[j..j + |NEW_SEGMENT|];
    } else if d == |NEW_SEGMENT| - 1 {
      // the candidate ends with the inserted '/', which equals the '/' it replaced
      assert s[i] == OLD_SEGMENT[0] by { assert s[i..i + |OLD_SEGMENT|][0] == s[i]; }
      var candidate, original := t[j..j + |NEW_SEGMENT|], s[j..j + |NEW_SEGMENT|];
      forall k | 0 <= k < |NEW_SEGMENT| ensures candidate[k] == original[k] {
        assert candidate[k] == t[j + k];
        assert original[k] == s[j + k];
      }
      assert candidate == original;
    } else if d == 4 {
      // the inserted segment continues "/a", where a match would need "/v"
      assert t[j..j + |NEW_SEGMENT|][5] == t[i + 1] == 'a';
    } else {
      // a match would need '/' at offset d, where the inserted segment starts
      assert t[j..j + |NEW_SEGMENT|][d] == t[i] == '/';
      assert NEW_SEGMENT[d] != '/';
    }
  }

  /** Putting `/api/v3/` back where `/api/v2/` was inserted restores `s`. */
  lemma SpliceInverse(s: string, i: nat, t: string)
    requires OccursAt(s, OLD_SEGMENT, i)
    requires t == s[..i] + NEW_SEGMENT + s[i + |OLD_SEGMENT|..]
    ensures t[..i] + OLD_SEGMENT + t[i + |NEW_SEGMENT|..] == s
  {
    SpliceAt(s, OLD_SEGMENT, NEW_SEGMENT, i, t);
    assert t[..i] == s[..i];
    assert t[i + |NEW_SEGMENT|..] == s[i + |OLD_SEGMENT|..];
    assert s[i..i + |OLD_SEGMENT|] == OLD_SEGMENT;
    assert s == s[..i] + s[i..i + |OLD_SEGMENT|] + s[i + |OLD_SEGMENT|..];
  }

  /** Undoing the rewrite on its result gives the original URL back, when
      that URL held no `/api/v2/` of its own: the rewrite loses nothing. */
  lemma RewriteUndone(s: string)
    requires Includes(s, OLD_SEGMENT)
    requires !Includes(s, NEW_SEGMENT)
    ensures ReplaceFirst(ReplaceFirst(s, OLD_SEGMENT, NEW_SEGMENT), NEW_SEGMENT, OLD_SEGMENT) == s
  {
    var i := IndexOf(s, OLD_SEGMENT);
    var t := s[..i] + NEW_SEGMENT + s[i + |OLD_SEGMENT|..];
    assert ReplaceFirst(s, OLD_SEGMENT, NEW_SEGMENT) == t;
    assert OccursAt(t, NEW_SEGMENT, i) by {
      SpliceAt(s, OLD_SEGMENT, NEW_SEGMENT, i, t);
      assert t[i..i + |NEW_SEGMENT|] == NEW_SEGMENT;
    }
    forall j | 0 <= j < i
      ensures !OccursAt(t, NEW_SEGMENT, j)
    {
      NoEarlierNewSegment(s, i, t, j);
    }
    IndexOfFirst(t, NEW_SEGMENT, i);
    assert ReplaceFirst(t, NEW_SEGMENT, OLD_SEGMENT) == t[..i] + OLD_SEGMENT + t[i + |NEW_SEGMENT|..];
    SpliceInverse(s, i, t);
  }

  /** The second argument of fetch, updated in place by the wrapper. Headers
      and the other options are not modelled. */
  class RequestInit {
    var httpMethod: Option<string>
    var body: Option<Body>

    constructor (httpMethod: Option<string>, body: Option<Body>)
      ensures this.httpMethod == httpMethod && this.body == body
    {
      this.httpMethod := httpMethod;
      this.body := body;
    }
  }

  /** One call of the original fetch. */
  datatype FetchCall = FetchCall(input: FetchInput, init: RequestInit?)

  /** `window.fetch` after `setupApiInterceptor()`: `forwarded` lists the
      calls that reached the original fetch, oldest first. */
  class PatchedFetch {
    var forwarded: seq<FetchCall>

    /** `setupApiInterceptor()`: nothing has been forwarded yet. */
    constructor ()
      ensures forwarded == []
    {
      forwarded := [];
    }

    /** One call through the wrapper: exactly one forwarded call, with the
        rewritten input and the caller's own `init` object; in it only the
        method may change, and only as FixedMethod says. */
    method Fetch(input: FetchInput, init: RequestInit?) returns (call: FetchCall)
      modifies this, init
      ensures call == FetchCall(RewriteInput(input), init)
      ensures forwarded == old(forwarded) + [call]
      ensures init != null ==>
                init.httpMethod == FixedMethod(old(init.httpMethod), old(init.body)) &&
                init.body == old(init.body)
    {
      var url := input;
      if url.Url? && Includes(url.url, OLD_SEGMENT) {
        url := Url(ReplaceFirst(url.url, OLD_SEGMENT, NEW_SEGMENT));
      }
      if init != null && BodyTruthy(init.body) &&
         (!Truthy(init.httpMethod) || init.httpMethod == Some("GET") || init.httpMethod == Some("HEAD")) {
        init.httpMethod := Some(POST);
      }
      call := FetchCall(url, init);
      forwarded := forwarded + [call];
    }
  }
}
