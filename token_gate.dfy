/** The `verifyToken` middleware (server/middleware/verifyToken.js): check the
    `Authorization` header, take the token out of it, verify it, and either
    pass the request on with `req.user.id` set or answer 401/403. The
    signature check `jwt.verify` is a parameter: it yields the decoded user
    id, or None where it throws. */
module TokenGate {
  import opened Base

  /** What the middleware does with the request. */
  datatype Verdict = Proceed(userId: UserId) | Reject(status: nat, message: string)

  const Prefix: string := "Bearer "

  /** `s.startsWith(p)`. */
  predicate StartsWith(s: string, p: string)
  {
    |p| <= |s| && s[..|p|] == p
  }

  /** Joins fields with single spaces. */
  function Join(fields: seq<string>): string
    requires |fields| >= 1
  {
    if |fields| == 1 then fields[0] else fields[0] + " " + Join(fields[1..])
  }

  lemma JoinConsChar(c: char, t: seq<string>)
    requires |t| >= 1
    ensures Join([[c] + t[0]] + t[1..]) == [c] + Join(t)
  {
    var x := [[c] + t[0]] + t[1..];
    if |t| > 1 {
      assert x[1..] == t[1..];
    }
  }

  /** `s.split(" ")`: the maximal runs between single spaces, empty runs
      included; there is always at least one field, no field holds a space,
      and joining the fields back gives `s`. */
  function Split(s: string): (r: seq<string>)
    ensures |r| >= 1
    ensures forall i :: 0 <= i < |r| ==> ' ' !in r[i]
    ensures Join(r) == s
  {
    if s == [] then [""]
    else
      var rest := Split(s[1..]);
      if s[0] == ' ' then
        assert ([""] + rest)[1..] == rest;
        [""] + rest
      else
        JoinConsChar(s[0], rest);
        assert s == [s[0]] + s[1..];
        [[s[0]] + rest[0]] + rest[1..]
  }

  /** The position of the first space in `s`, or `|s|` if there is none. */
  function FirstSpace(s: string): (k: nat)
    ensures k <= |s|
    ensures ' ' !in s[..k]
    ensures k < |s| ==> s[k] == ' '
  {
    if s == [] || s[0] == ' ' then 0
    else
      var k := FirstSpace(s[1..]);
      assert s[..k + 1] == [s[0]] + s[1..][..k];
      k + 1
  }

  /** The first field of a split is the text before the first space. */
  lemma {:induction false} SplitFirstField(s: string)
    ensures Split(s)[0] == s[..FirstSpace(s)]
  {
    if s != [] && s[0] != ' ' {
      SplitFirstField(s[1..]);
      assert s[..FirstSpace(s)] == [s[0]] + s[1..][..FirstSpace(s[1..])];
    }
  }

  /** A space-free word followed by a space splits off as the first field. */
  lemma {:induction false} SplitAfterWord(w: string, rest: string)
    requires ' ' !in w
    ensures Split(w + " " + rest) == [w] + Split(rest)
  {
    var s := w + " " + rest;
    if w == [] {
      assert s == " " + rest && s[1..] == rest;
    } else {
      assert s[0] == w[0] && s[1..] == w[1..] + " " + rest;
      SplitAfterWord(w[1..], rest);
      assert [w[0]] + w[1..] == w;
    }
  }

  /** `authHeader.split(" ")[1]` for a header that starts with "Bearer ": the
      text after the prefix up to the next space, possibly empty. */
  lemma TokenAfterPrefix(header: string)
    requires StartsWith(header, Prefix)
    ensures |Split(header)| >= 2
    ensures Split(header)[1] == header[7..][..FirstSpace(header[7..])]
  {
    assert header == "Bearer" + " " + header[7..];
    SplitAfterWord("Bearer", header[7..]);
    SplitFirstField(header[7..]);
  }

  /** `verifyToken`. A missing or empty header, or one without the exact
      prefix "Bearer ", gives 401 "No token provided". Otherwise the second
      space-separated field goes to `verify`: a failure gives 403 "Invalid
      token", a decoded id lets the request through as that user. */
  function VerifyToken(header: Option<string>, verify: string -> Option<UserId>): (v: Verdict)
    ensures header.None? || !StartsWith(header.value, Prefix) ==> v == Reject(401, "No token provided")
    ensures header.Some? && StartsWith(header.value, Prefix) ==>
              var rest := header.value[7..];
              v == match verify(rest[..FirstSpace(rest)])
                   case None => Reject(403, "Invalid token")
                   case Some(id) => Proceed(id)
  {
    if header.None? || header.value == "" || !StartsWith(header.value, Prefix) then
      Reject(401, "No token provided")
    else
      TokenAfterPrefix(header.value);
      var token := Split(header.value)[1];
      match verify(token)
      case None => Reject(403, "Invalid token")
      case Some(id) => Proceed(id)
  }

  /** A header the prefix check refuses is never handed to `verify`: the
      verdict is the same whatever the verifier would say. */
  lemma RefusedHeaderSkipsVerify(header: Option<string>, verify1: string -> Option<UserId>, verify2: string -> Option<UserId>)
    requires header.None? || !StartsWith(header.value, Prefix)
    ensures VerifyToken(header, verify1) == VerifyToken(header, verify2) == Reject(401, "No token provided")
  {
  }

  /** A double space after "Bearer" yields the empty token. */
  lemma DoubleSpaceGivesEmptyToken()
    ensures Split("Bearer  x") == ["Bearer", "", "x"]
  {
    var h := "Bearer  x";
    assert h == "Bearer" + " " + " x";
    SplitAfterWord("Bearer", " x");
    assert " x" == "" + " " + "x";
    SplitAfterWord("", "x");
  }
}
