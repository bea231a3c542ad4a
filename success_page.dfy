/** The page the payment provider returns to: without a session id it
    redirects home; otherwise it builds the address that resumes the reading,
    from the query parameters and the values saved in local storage before
    checkout. The storage is only read here. */
module SuccessPage {
  import opened Wrappers
  import opened Strings
  import PaymentModal
  import TarotContext

  datatype SuccessView =
    | RedirectHome
    | Confirmation(resumeUrl: string, readingNowLink: string)

  /** A truthy string: present and non-empty. */
  predicate Present(v: Option<string>)
  {
    v.Some? && v.value != ""
  }

  /** `searchParams.get("readingType") || "single"`. */
  function ReadingTypeOrDefault(param: Option<string>): (readingType: string)
    ensures Present(param) ==> readingType == param.value
    ensures !Present(param) ==> readingType == "single"
  {
    if Present(param) then param.value else "single"
  }

  /** `localStorage.getItem(key)`. */
  function GetItem(items: map<string, string>, key: string): Option<string>
  {
    if key in items then Some(items[key]) else None
  }

  /** The address the page forwards to after its delay. `encode` stands for
      `encodeURIComponent`. */
  function ResumeUrl(sessionId: string, readingType: string, storedCardIds: Option<string>,
                     storedQuestion: Option<string>, storedUserInfo: Option<string>,
                     encode: string -> string): string
  {
    "/read?continue=true&session_id=" + sessionId + "&readingType=" + readingType
    + (if Present(storedCardIds) then "&cardIds=" + storedCardIds.value else "")
    + (if Present(storedQuestion) then "&question=" + encode(storedQuestion.value) else "")
    + (if Present(storedUserInfo) then "&userInfo=" + encode(storedUserInfo.value) else "")
    + "&premium=true"
  }

  /** The target of the "Go to Reading Now" button: the resume address as it
      would be with nothing in storage. */
  function ReadingNowLink(sessionId: string, readingType: string): (link: string)
    ensures link == ResumeUrl(sessionId, readingType, None, None, None, s => s)
  {
    "/read?continue=true&session_id=" + sessionId + "&readingType=" + readingType + "&premium=true"
  }

  /** `SuccessContent`: what the page does for its query parameters and the
      current storage. */
  function SuccessContent(sessionIdParam: Option<string>, readingTypeParam: Option<string>,
                          items: map<string, string>, encode: string -> string): (v: SuccessView)
    ensures v.RedirectHome? <==> !Present(sessionIdParam)
    ensures v.Confirmation? ==>
      var readingType := ReadingTypeOrDefault(readingTypeParam);
      && v.resumeUrl == ResumeUrl(sessionIdParam.value, readingType,
                                  GetItem(items, PaymentModal.CardIdsKey),
                                  GetItem(items, PaymentModal.QuestionKey),
                                  GetItem(items, PaymentModal.UserInfoKey), encode)
      && v.readingNowLink == ReadingNowLink(sessionIdParam.value, readingType)
  {
    if !Present(sessionIdParam) then RedirectHome
    else
      var readingType := ReadingTypeOrDefault(readingTypeParam);
      Confirmation(
        ResumeUrl(sessionIdParam.value, readingType,
                  GetItem(items, PaymentModal.CardIdsKey),
                  GetItem(items, PaymentModal.QuestionKey),
                  GetItem(items, PaymentModal.UserInfoKey), encode),
        ReadingNowLink(sessionIdParam.value, readingType))
  }

  /** The "Go to Reading Now" link never carries stored values: it is the
      same whatever the storage holds. */
  lemma ReadingNowLinkIgnoresStorage(sessionIdParam: Option<string>, readingTypeParam: Option<string>,
                                     items: map<string, string>, other: map<string, string>,
                                     encode: string -> string)
    requires Present(sessionIdParam)
    ensures SuccessContent(sessionIdParam, readingTypeParam, items, encode).readingNowLink ==
            SuccessContent(sessionIdParam, readingTypeParam, other, encode).readingNowLink
  {
  }

  // ---- The resume address as a list of query parameters ----

  function Piece(p: (string, string)): string
  {
    p.0 + "=" + p.1
  }

  function Pieces(params: seq<(string, string)>): (r: seq<string>)
    ensures |r| == |params| && forall i :: 0 <= i < |params| ==> r[i] == Piece(params[i])
  {
    seq(|params|, i requires 0 <= i < |params| => Piece(params[i]))
  }

  function QueryString(params: seq<(string, string)>): string
  {
    Join(Pieces(params), "&")
  }

  function OptionalParam(key: string, stored: Option<string>, value: string): (r: seq<(string, string)>)
    ensures |r| <= 1
  {
    if Present(stored) then [(key, value)] else []
  }

  /** The parameters of the resume address, in order: `continue`,
      `session_id`, `readingType`, then `cardIds`, `question` and `userInfo`
      each only when stored non-empty, then `premium`. */
  function ResumeParams(sessionId: string, readingType: string, storedCardIds: Option<string>,
                        storedQuestion: Option<string>, storedUserInfo: Option<string>,
                        encode: string -> string): seq<(string, string)>
  {
    [("continue", "true"), ("session_id", sessionId), ("readingType", readingType)]
    + OptionalParam("cardIds", storedCardIds, if storedCardIds.Some? then storedCardIds.value else "")
    + OptionalParam("question", storedQuestion, if storedQuestion.Some? then encode(storedQuestion.value) else "")
    + OptionalParam("userInfo", storedUserInfo, if storedUserInfo.Some? then encode(storedUserInfo.value) else "")
    + [("premium", "true")]
  }

  /** How an optional piece shows in the joined string. */
  function Rendered(q: seq<string>): string
  {
    if |q| == 1 then "&" + q[0] else ""
  }

  lemma OptionalJoin(q: seq<string>, rest: seq<string>)
    requires |q| <= 1 && |rest| >= 1
    ensures "&" + Join(q + rest, "&") == Rendered(q) + ("&" + Join(rest, "&"))
  {
    if |q| == 1 {
      assert (q + rest)[1..] == rest;
    } else {
      assert q + rest == rest;
    }
  }

  lemma JoinThree(p1: string, p2: string, p3: string)
    ensures Join([p1, p2, p3], "&") == p1 + "&" + p2 + "&" + p3
  {
    assert Join([p2, p3], "&") == p2 + "&" + p3 by {
      assert [p2, p3][1..] == [p3];
    }
    assert [p1, p2, p3][1..] == [p2, p3];
  }

  lemma Flatten(a: string, b: string, c: string, d: string, e: string)
    ensures a + (b + (c + (d + e))) == a + b + c + d + e
  {
  }

  /** Joining three fixed pieces, three optional ones and a last one. */
  lemma JoinShape(p1: string, p2: string, p3: string, q1: seq<string>, q2: seq<string>,
                  q3: seq<string>, p4: string)
    requires |q1| <= 1 && |q2| <= 1 && |q3| <= 1
    ensures Join([p1, p2, p3] + q1 + q2 + q3 + [p4], "&")
         == p1 + "&" + p2 + "&" + p3 + Rendered(q1) + Rendered(q2) + Rendered(q3) + "&" + p4
  {
    var h := [p1, p2, p3];
    var r3 := q3 + [p4];
    var r2 := q2 + r3;
    var r1 := q1 + r2;
    assert h + q1 + q2 + q3 + [p4] == h + r1;
    var x1, x2, x3 := Rendered(q1), Rendered(q2), Rendered(q3);
    JoinThree(p1, p2, p3);
    var jh := p1 + "&" + p2 + "&" + p3;
    calc {
      Join(h + r1, "&");
      { JoinAppend(h, r1, "&"); }
      jh + "&" + Join(r1, "&");
      jh + ("&" + Join(r1, "&"));
      { OptionalJoin(q1, r2); }
      jh + (x1 + ("&" + Join(r2, "&")));
      { OptionalJoin(q2, r3); }
      jh + (x1 + (x2 + ("&" + Join(r3, "&"))));
      { OptionalJoin(q3, [p4]); }
      jh + (x1 + (x2 + (x3 + ("&" + Join([p4], "&")))));
      jh + (x1 + (x2 + (x3 + ("&" + p4))));
      { Flatten(jh, x1, x2, x3, "&" + p4); }
      jh + x1 + x2 + x3 + ("&" + p4);
      jh + x1 + x2 + x3 + "&" + p4;
    }
  }

  lemma PiecesAppend(xs: seq<(string, string)>, ys: seq<(string, string)>)
    ensures Pieces(xs + ys) == Pieces(xs) + Pieces(ys)
  {
  }

  /** The suffix the address gets for an optional stored value. */
  lemma RenderedOptional(key: string, stored: Option<string>, value: string)
    ensures Rendered(Pieces(OptionalParam(key, stored, value)))
         == if Present(stored) then "&" + key + "=" + value else ""
  {
  }

  lemma AddressHead(sessionId: string)
    ensures "/read?" + Piece(("continue", "true")) + "&" + Piece(("session_id", sessionId))
         == "/read?continue=true&session_id=" + sessionId
  {
    var p1 := Piece(("continue", "true"));
    assert p1 == "continue=true";
    var front := "/read?" + p1 + "&" + "session_id" + "=";
    assert front == "/read?continue=true&session_id=";
    calc {
      "/read?" + p1 + "&" + Piece(("session_id", sessionId));
      "/read?" + p1 + "&" + ("session_id" + "=" + sessionId);
      front + sessionId;
    }
  }

  /** `&key=value` is the text `&key=` followed by the value. */
  lemma KeyedSuffix(key: string, value: string, keyed: string)
    requires keyed == "&" + key + "="
    ensures "&" + Piece((key, value)) == keyed + value
  {
  }

  lemma AddressParts(readingType: string, storedCardIds: Option<string>, storedQuestion: Option<string>,
                     storedUserInfo: Option<string>, encode: string -> string)
    ensures "&" + Piece(("readingType", readingType)) == "&readingType=" + readingType
    ensures "&" + Piece(("premium", "true")) == "&premium=true"
    ensures Rendered(Pieces(OptionalParam("cardIds", storedCardIds,
                                          if storedCardIds.Some? then storedCardIds.value else "")))
         == (if Present(storedCardIds) then "&cardIds=" + storedCardIds.value else "")
    ensures Rendered(Pieces(OptionalParam("question", storedQuestion,
                                          if storedQuestion.Some? then encode(storedQuestion.value) else "")))
         == (if Present(storedQuestion) then "&question=" + encode(storedQuestion.value) else "")
    ensures Rendered(Pieces(OptionalParam("userInfo", storedUserInfo,
                                          if storedUserInfo.Some? then encode(storedUserInfo.value) else "")))
         == (if Present(storedUserInfo) then "&userInfo=" + encode(storedUserInfo.value) else "")
  {
    KeyedSuffix("readingType", readingType, "&readingType=");
    KeyedSuffix("premium", "true", "&premium=");
    assert "&premium=" + "true" == "&premium=true";
    if Present(storedCardIds) {
      KeyedSuffix("cardIds", storedCardIds.value, "&cardIds=");
    }
    if Present(storedQuestion) {
      KeyedSuffix("question", encode(storedQuestion.value), "&question=");
    }
    if Present(storedUserInfo) {
      KeyedSuffix("userInfo", encode(storedUserInfo.value), "&userInfo=");
    }
  }

  /** Regrouping the joined parameters into the pieces the address is
      written with. `p1` .. `p4` are the `continue`, `session_id`,
      `readingType` and `premium` pieces and `x1` .. `x3` the three optional
      ones (each empty or starting with "&"); on the address side, `head` is
      the literal up to the session id, `keyed` + `value` the reading-type
      part and `last` the closing "&premium=true". */
  lemma Regroup(front: string, p1: string, p2: string, p3: string, x1: string, x2: string,
                x3: string, p4: string, head: string, keyed: string, value: string, last: string)
    requires front + p1 + "&" + p2 == head
    requires "&" + p3 == keyed + value
    requires "&" + p4 == last
    ensures front + (p1 + "&" + p2 + "&" + p3 + x1 + x2 + x3 + "&" + p4)
         == head + keyed + value + x1 + x2 + x3 + last
  {
    var a, b, m, c := p1 + "&" + p2, "&" + p3, x1 + x2 + x3, "&" + p4;
    calc {
      front + (p1 + "&" + p2 + "&" + p3 + x1 + x2 + x3 + "&" + p4);
      front + (a + b + m + c);
      front + a + b + m + c;
      head + (keyed + value) + m + last;
      head + keyed + value + x1 + x2 + x3 + last;
    }
  }

  /** The parameter list joined with `&`, piece by piece. */
  lemma QueryOfResumeParams(sessionId: string, readingType: string, storedCardIds: Option<string>,
                            storedQuestion: Option<string>, storedUserInfo: Option<string>,
                            encode: string -> string)
    ensures QueryString(ResumeParams(sessionId, readingType, storedCardIds, storedQuestion, storedUserInfo, encode))
         == Piece(("continue", "true")) + "&" + Piece(("session_id", sessionId)) + "&"
            + Piece(("readingType", readingType))
            + Rendered(Pieces(OptionalParam("cardIds", storedCardIds,
                                            if storedCardIds.Some? then storedCardIds.value else "")))
            + Rendered(Pieces(OptionalParam("question", storedQuestion,
                                            if storedQuestion.Some? then encode(storedQuestion.value) else "")))
            + Rendered(Pieces(OptionalParam("userInfo", storedUserInfo,
                                            if storedUserInfo.Some? then encode(storedUserInfo.value) else "")))
            + "&" + Piece(("premium", "true"))
  {
    var o1 := OptionalParam("cardIds", storedCardIds, if storedCardIds.Some? then storedCardIds.value else "");
    var o2 := OptionalParam("question", storedQuestion, if storedQuestion.Some? then encode(storedQuestion.value) else "");
    var o3 := OptionalParam("userInfo", storedUserInfo, if storedUserInfo.Some? then encode(storedUserInfo.value) else "");
    var head := [("continue", "true"), ("session_id", sessionId), ("readingType", readingType)];
    var last := [("premium", "true")];
    var p1, p2 := Piece(("continue", "true")), Piece(("session_id", sessionId));
    var p3, p4 := Piece(("readingType", readingType)), Piece(("premium", "true"));
    PiecesAppend(head + o1 + o2 + o3, last);
    PiecesAppend(head + o1 + o2, o3);
    PiecesAppend(head + o1, o2);
    PiecesAppend(head, o1);
    assert Pieces(head) == [p1, p2, p3];
    assert Pieces(ResumeParams(sessionId, readingType, storedCardIds, storedQuestion, storedUserInfo, encode))
        == [p1, p2, p3] + Pieces(o1) + Pieces(o2) + Pieces(o3) + [p4];
    JoinShape(p1, p2, p3, Pieces(o1), Pieces(o2), Pieces(o3), p4);
  }

  /** The address the page builds is `/read?` followed by the parameter list
      joined with `&`. */
  lemma ResumeUrlIsQuery(sessionId: string, readingType: string, storedCardIds: Option<string>,
                         storedQuestion: Option<string>, storedUserInfo: Option<string>,
                         encode: string -> string)
    ensures ResumeUrl(sessionId, readingType, storedCardIds, storedQuestion, storedUserInfo, encode)
         == "/read?" + QueryString(ResumeParams(sessionId, readingType, storedCardIds, storedQuestion, storedUserInfo, encode))
  {
    var x1 := Rendered(Pieces(OptionalParam("cardIds", storedCardIds,
                                            if storedCardIds.Some? then storedCardIds.value else "")));
    var x2 := Rendered(Pieces(OptionalParam("question", storedQuestion,
                                            if storedQuestion.Some? then encode(storedQuestion.value) else "")));
    var x3 := Rendered(Pieces(OptionalParam("userInfo", storedUserInfo,
                                            if storedUserInfo.Some? then encode(storedUserInfo.value) else "")));
    QueryOfResumeParams(sessionId, readingType, storedCardIds, storedQuestion, storedUserInfo, encode);
    AddressHead(sessionId);
    AddressParts(readingType, storedCardIds, storedQuestion, storedUserInfo, encode);
    Regroup("/read?", Piece(("continue", "true")), Piece(("session_id", sessionId)),
            Piece(("readingType", readingType)), x1, x2, x3, Piece(("premium", "true")),
            "/read?continue=true&session_id=" + sessionId, "&readingType=", readingType, "&premium=true");
  }

  /** `s` up to and after the first `c` (the whole of `s` and "" when there is none). */
  function SplitAtFirst(s: string, c: char): (string, string)
    decreases |s|
  {
    if |s| == 0 then ("", "")
    else if s[0] == c then ("", s[1..])
    else
      var kv := SplitAtFirst(s[1..], c);
      ([s[0]] + kv.0, kv.1)
  }

  lemma {:induction false} SplitAtFirstPiece(key: string, value: string, c: char)
    requires c !in key
    ensures SplitAtFirst(key + [c] + value, c) == (key, value)
    decreases |key|
  {
    var s := key + [c] + value;
    if |key| == 0 {
      assert s == [c] + value;
    } else {
      assert s[1..] == key[1..] + [c] + value;
      SplitAtFirstPiece(key[1..], value, c);
      assert [key[0]] + key[1..] == key;
    }
  }

  /** Reads a query string back into its parameter list. */
  function ParseQuery(query: string): seq<(string, string)>
  {
    var pieces := Split(query, '&');
    seq(|pieces|, i requires 0 <= i < |pieces| => SplitAtFirst(pieces[i], '='))
  }

  /** No key or value contains `&`, and no key contains `=`. */
  predicate Separable(params: seq<(string, string)>)
  {
    forall i :: 0 <= i < |params| ==> '&' !in params[i].0 && '&' !in params[i].1 && '=' !in params[i].0
  }

  lemma SeparableAppend(xs: seq<(string, string)>, ys: seq<(string, string)>)
    requires Separable(xs) && Separable(ys)
    ensures Separable(xs + ys)
  {
    forall i | 0 <= i < |xs + ys|
      ensures '&' !in (xs + ys)[i].0 && '&' !in (xs + ys)[i].1 && '=' !in (xs + ys)[i].0
    {
      if i >= |xs| {
        assert (xs + ys)[i] == ys[i - |xs|];
      }
    }
  }

  /** A parameter list survives being written as a query string, provided no
      key or value contains `&` and no key contains `=`. */
  lemma QueryStringRoundTrip(params: seq<(string, string)>)
    requires |params| >= 1 && Separable(params)
    ensures ParseQuery(QueryString(params)) == params
  {
    var pieces := Pieces(params);
    forall i | 0 <= i < |pieces| ensures '&' !in pieces[i] {
      assert pieces[i] == params[i].0 + "=" + params[i].1;
    }
    SplitJoin(pieces, '&');
    forall i | 0 <= i < |params| ensures SplitAtFirst(pieces[i], '=') == params[i] {
      SplitAtFirstPiece(params[i].0, params[i].1, '=');
    }
  }

  /** The first value given for a key. */
  function Lookup(params: seq<(string, string)>, key: string): (v: Option<string>)
    ensures v.Some? ==> (key, v.value) in params
    ensures v.None? ==> forall i :: 0 <= i < |params| ==> params[i].0 != key
    decreases |params|
  {
    if |params| == 0 then None
    else if params[0].0 == key then Some(params[0].1)
    else Lookup(params[1..], key)
  }

  lemma {:induction false} LookupAppend(xs: seq<(string, string)>, ys: seq<(string, string)>, key: string)
    ensures Lookup(xs + ys, key) == if Lookup(xs, key).Some? then Lookup(xs, key) else Lookup(ys, key)
    decreases |xs|
  {
    if |xs| > 0 {
      assert (xs + ys)[1..] == xs[1..] + ys;
      LookupAppend(xs[1..], ys, key);
    } else {
      assert xs + ys == ys;
    }
  }

  /** A value that `encodeURIComponent` produces never contains `&`. */
  ghost predicate EncodesAmpersand(encode: string -> string)
  {
    forall s :: '&' !in encode(s)
  }

  lemma LeadingSeparable(sessionId: string, readingType: string)
    requires '&' !in sessionId && '&' !in readingType
    ensures Separable([("continue", "true"), ("session_id", sessionId), ("readingType", readingType)])
  {
    assert '&' !in "continue" && '=' !in "continue" && '&' !in "true";
    assert '&' !in "session_id" && '=' !in "session_id";
    assert '&' !in "readingType" && '=' !in "readingType";
  }

  lemma OptionalSeparable(key: string, stored: Option<string>, value: string)
    requires '&' !in key && '=' !in key && '&' !in value
    ensures Separable(OptionalParam(key, stored, value))
  {
  }

  /** No key or value of the resume parameters contains `&`, and no key `=`. */
  lemma ResumeParamsSeparable(sessionId: string, readingType: string, storedCardIds: Option<string>,
                              storedQuestion: Option<string>, storedUserInfo: Option<string>,
                              encode: string -> string)
    requires '&' !in sessionId && '&' !in readingType
    requires storedCardIds.Some? ==> '&' !in storedCardIds.value
    requires EncodesAmpersand(encode)
    ensures Separable(ResumeParams(sessionId, readingType, storedCardIds, storedQuestion, storedUserInfo, encode))
  {
    var head := [("continue", "true"), ("session_id", sessionId), ("readingType", readingType)];
    var o1 := OptionalParam("cardIds", storedCardIds, if storedCardIds.Some? then storedCardIds.value else "");
    var o2 := OptionalParam("question", storedQuestion, if storedQuestion.Some? then encode(storedQuestion.value) else "");
    var o3 := OptionalParam("userInfo", storedUserInfo, if storedUserInfo.Some? then encode(storedUserInfo.value) else "");
    var last := [("premium", "true")];
    LeadingSeparable(sessionId, readingType);
    OptionalSeparable("cardIds", storedCardIds, if storedCardIds.Some? then storedCardIds.value else "");
    OptionalSeparable("question", storedQuestion, if storedQuestion.Some? then encode(storedQuestion.value) else "");
    OptionalSeparable("userInfo", storedUserInfo, if storedUserInfo.Some? then encode(storedUserInfo.value) else "");
    assert Separable(last) by {
      assert '&' !in "premium" && '=' !in "premium" && '&' !in "true";
    }
    SeparableAppend(head, o1);
    SeparableAppend(head + o1, o2);
    SeparableAppend(head + o1 + o2, o3);
    SeparableAppend(head + o1 + o2 + o3, last);
  }

  /** The lookups answered by the three leading parameters. */
  lemma LeadingLookups(sessionId: string, readingType: string)
    ensures var head := [("continue", "true"), ("session_id", sessionId), ("readingType", readingType)];
      && Lookup(head, "session_id") == Some(sessionId)
      && Lookup(head, "readingType") == Some(readingType)
      && Lookup(head, "cardIds") == None
  {
    var head := [("continue", "true"), ("session_id", sessionId), ("readingType", readingType)];
    assert head[1..] == [("session_id", sessionId), ("readingType", readingType)];
    assert head[1..][1..] == [("readingType", readingType)];
    assert "continue" != "session_id" && "continue" != "readingType" && "session_id" != "readingType";
    assert Lookup(head[1..][1..], "readingType") == Some(readingType);
    assert Lookup(head[1..][1..], "cardIds") == None by {
      assert head[1..][1..][1..] == [];
    }
  }

  lemma OptionalLookup(key: string, stored: Option<string>, value: string)
    ensures Lookup(OptionalParam(key, stored, value), key) == if Present(stored) then Some(value) else None
    ensures forall other :: other != key ==> Lookup(OptionalParam(key, stored, value), other) == None
  {
  }

  /** The resume address reads back as its parameter list: `session_id` and
      `readingType` as given, and `cardIds` exactly as stored (verbatim) when
      stored non-empty and absent otherwise. */
  lemma ResumeUrlRoundTrip(sessionId: string, readingType: string, storedCardIds: Option<string>,
                           storedQuestion: Option<string>, storedUserInfo: Option<string>,
                           encode: string -> string)
    requires '&' !in sessionId && '&' !in readingType
    requires storedCardIds.Some? ==> '&' !in storedCardIds.value
    requires EncodesAmpersand(encode)
    ensures var url := ResumeUrl(sessionId, readingType, storedCardIds, storedQuestion, storedUserInfo, encode);
      var params := ParseQuery(url[6..]);
      && url[..6] == "/read?"
      && params == ResumeParams(sessionId, readingType, storedCardIds, storedQuestion, storedUserInfo, encode)
      && Lookup(params, "session_id") == Some(sessionId)
      && Lookup(params, "readingType") == Some(readingType)
      && Lookup(params, "cardIds") == (if Present(storedCardIds) then storedCardIds else None)
  {
    var url := ResumeUrl(sessionId, readingType, storedCardIds, storedQuestion, storedUserInfo, encode);
    var params := ResumeParams(sessionId, readingType, storedCardIds, storedQuestion, storedUserInfo, encode);
    ResumeUrlIsQuery(sessionId, readingType, storedCardIds, storedQuestion, storedUserInfo, encode);
    assert url[..6] == "/read?" && url[6..] == QueryString(params);
    ResumeParamsSeparable(sessionId, readingType, storedCardIds, storedQuestion, storedUserInfo, encode);
    QueryStringRoundTrip(params);
    ResumeLookups(sessionId, readingType, storedCardIds, storedQuestion, storedUserInfo, encode);
  }

  lemma RegroupParams(a: seq<(string, string)>, b: seq<(string, string)>, c: seq<(string, string)>,
                      d: seq<(string, string)>, e: seq<(string, string)>)
    ensures a + b + c + d + e == a + (b + (c + (d + e)))
  {
  }

  lemma ResumeLookups(sessionId: string, readingType: string, storedCardIds: Option<string>,
                      storedQuestion: Option<string>, storedUserInfo: Option<string>,
                      encode: string -> string)
    ensures var params := ResumeParams(sessionId, readingType, storedCardIds, storedQuestion, storedUserInfo, encode);
      && Lookup(params, "session_id") == Some(sessionId)
      && Lookup(params, "readingType") == Some(readingType)
      && Lookup(params, "cardIds") == (if Present(storedCardIds) then storedCardIds else None)
  {
    var head := [("continue", "true"), ("session_id", sessionId), ("readingType", readingType)];
    var c := if storedCardIds.Some? then storedCardIds.value else "";
    var o1 := OptionalParam("cardIds", storedCardIds, c);
    var o2 := OptionalParam("question", storedQuestion, if storedQuestion.Some? then encode(storedQuestion.value) else "");
    var o3 := OptionalParam("userInfo", storedUserInfo, if storedUserInfo.Some? then encode(storedUserInfo.value) else "");
    var last := [("premium", "true")];
    var rest := o2 + (o3 + last);
    RegroupParams(head, o1, o2, o3, last);
    LeadingLookups(sessionId, readingType);
    LookupAppend(head, o1 + rest, "session_id");
    LookupAppend(head, o1 + rest, "readingType");
    LookupAppend(head, o1 + rest, "cardIds");
    LookupAppend(o1, rest, "cardIds");
    OptionalLookup("cardIds", storedCardIds, c);
    OptionalLookup("question", storedQuestion, if storedQuestion.Some? then encode(storedQuestion.value) else "");
    OptionalLookup("userInfo", storedUserInfo, if storedUserInfo.Some? then encode(storedUserInfo.value) else "");
    assert "question" != "cardIds" && "userInfo" != "cardIds";
    LookupAppend(o2, o3 + last, "cardIds");
    LookupAppend(o3, last, "cardIds");
    assert "premium" != "cardIds";
  }

  /** The stored card-id list has no `&`: it is digits and commas. */
  lemma CardIdsValueSeparable(cardIds: seq<nat>)
    ensures '&' !in PaymentModal.CardIdsValue(cardIds)
  {
    var parts := seq(|cardIds|, i requires 0 <= i < |cardIds| => NatToString(cardIds[i]));
    forall i | 0 <= i < |parts| ensures '&' !in parts[i] {
      assert IsDigits(parts[i]);
    }
    JoinAvoids(parts, ",", '&');
  }

  /** The session id and the reading type go into the resume address
      without `encodeURIComponent`, and the page reads them with
      `searchParams.get`, which decodes `%26` to "&". A reading type that
      carries "&cardIds=..." therefore adds a `cardIds` parameter ahead of the
      stored one, and the first `cardIds` is what a reader of the address
      gets: the stored selection is overridden. */
  lemma ReadingTypeInjectsCardIds(sessionId: string, kind: string, injected: string, stored: string,
                                  encode: string -> string)
    requires '&' !in sessionId && '&' !in kind && '&' !in injected && '&' !in stored
    ensures var params := ParseQuery(ResumeUrl(sessionId, kind + "&cardIds=" + injected, Some(stored),
                                               None, None, encode)[6..]);
      Lookup(params, "readingType") == Some(kind) && Lookup(params, "cardIds") == Some(injected)
  {
    var rt := kind + "&cardIds=" + injected;
    var front := [("continue", "true"), ("session_id", sessionId)];
    var tail := OptionalParam("cardIds", Some(stored), stored) + [("premium", "true")];
    var params := ResumeParams(sessionId, rt, Some(stored), None, None, encode);
    StoredIdsOnly(sessionId, rt, stored, encode);
    var actual := front + [("readingType", kind), ("cardIds", injected)] + tail;
    var url := ResumeUrl(sessionId, rt, Some(stored), None, None, encode);
    ResumeUrlIsQuery(sessionId, rt, Some(stored), None, None, encode);
    assert url[6..] == QueryString(params);
    InjectedQuery(front, kind, injected, tail);
    InjectedSeparable(front, kind, injected, tail);
    QueryStringRoundTrip(actual);
    assert ParseQuery(url[6..]) == actual;
    assert actual == [("continue", "true"), ("session_id", sessionId), ("readingType", kind), ("cardIds", injected)] + tail;
    InjectedLookups(sessionId, kind, injected, tail);
  }

  /** With only the card ids stored, the parameters are the fixed ones
      around the optional `cardIds`. */
  lemma StoredIdsOnly(sessionId: string, readingType: string, stored: string, encode: string -> string)
    ensures ResumeParams(sessionId, readingType, Some(stored), None, None, encode)
         == [("continue", "true"), ("session_id", sessionId)] + [("readingType", readingType)]
            + (OptionalParam("cardIds", Some(stored), stored) + [("premium", "true")])
  {
  }

  /** A reading-type value holding "&cardIds=" writes the same query string
      as a separate `cardIds` parameter right after the reading type. */
  lemma InjectedQuery(front: seq<(string, string)>, kind: string, injected: string,
                      tail: seq<(string, string)>)
    requires |front| >= 1 && |tail| >= 1
    ensures QueryString(front + [("readingType", kind + "&cardIds=" + injected)] + tail)
         == QueryString(front + [("readingType", kind), ("cardIds", injected)] + tail)
  {
    var rt := kind + "&cardIds=" + injected;
    PiecesAppend(front + [("readingType", rt)], tail);
    PiecesAppend(front, [("readingType", rt)]);
    PiecesAppend(front + [("readingType", kind), ("cardIds", injected)], tail);
    PiecesAppend(front, [("readingType", kind), ("cardIds", injected)]);
    var x, y := Piece(("readingType", kind)), Piece(("cardIds", injected));
    assert Piece(("readingType", rt)) == x + "&" + y;
    assert Pieces([("readingType", rt)]) == [x + "&" + y];
    assert Pieces([("readingType", kind), ("cardIds", injected)]) == [x, y];
    JoinSplitPart(Pieces(front), x, y, Pieces(tail), "&");
  }

  lemma InjectedSeparable(front: seq<(string, string)>, kind: string, injected: string,
                          tail: seq<(string, string)>)
    requires Separable(front) && Separable(tail) && '&' !in kind && '&' !in injected
    ensures Separable(front + [("readingType", kind), ("cardIds", injected)] + tail)
  {
    SeparableAppend(front, [("readingType", kind), ("cardIds", injected)]);
    SeparableAppend(front + [("readingType", kind), ("cardIds", injected)], tail);
  }

  lemma InjectedLookups(sessionId: string, kind: string, injected: string, tail: seq<(string, string)>)
    ensures var ps := [("continue", "true"), ("session_id", sessionId), ("readingType", kind), ("cardIds", injected)] + tail;
      Lookup(ps, "readingType") == Some(kind) && Lookup(ps, "cardIds") == Some(injected)
  {
    var ps := [("continue", "true"), ("session_id", sessionId), ("readingType", kind), ("cardIds", injected)] + tail;
    var ps2 := [("readingType", kind), ("cardIds", injected)] + tail;
    var ps3 := [("cardIds", injected)] + tail;
    assert ps[1..][1..] == ps2 && ps2[1..] == ps3;
    assert Lookup(ps, "readingType") == Lookup(ps[1..], "readingType") == Lookup(ps2, "readingType") == Some(kind);
    assert Lookup(ps, "cardIds") == Lookup(ps[1..], "cardIds") == Lookup(ps2, "cardIds") == Lookup(ps3, "cardIds");
  }

  /** From payment to reading. The checkout writes the selection to local
      storage, and the payment provider returns to the success address the
      checkout endpoint set, which carries `session_id` and nothing else. The
      address the success page then resumes with carries that session and a
      `cardIds` parameter that reads back as the selection, in order; its
      `readingType` is "single" whatever reading was bought, because that
      address has no `readingType` and the page does not read
      `tarot_readingType`. */
  lemma PaidSelectionResumes(items: map<string, string>, question: string, userInfo: string,
                             cardIds: seq<nat>, readingType: TarotContext.SpreadType,
                             sessionId: string, encode: string -> string)
    requires |cardIds| >= 1
    requires sessionId != "" && '&' !in sessionId
    requires EncodesAmpersand(encode)
    ensures var stored := PaymentModal.StoredForCheckout(items, question, userInfo, cardIds, readingType);
      var view := SuccessContent(Some(sessionId), None, stored, encode);
      && view.Confirmation?
      && var params := ParseQuery(view.resumeUrl[6..]);
      && Lookup(params, "session_id") == Some(sessionId)
      && Lookup(params, "readingType") == Some("single")
      && Lookup(params, "cardIds").Some?
      && PaymentModal.ParseCardIds(Lookup(params, "cardIds").value) == cardIds
  {
    var stored := PaymentModal.StoredForCheckout(items, question, userInfo, cardIds, readingType);
    var value := PaymentModal.CardIdsValue(cardIds);
    assert GetItem(stored, PaymentModal.CardIdsKey) == Some(value);
    CardIdsValueSeparable(cardIds);
    PaymentModal.CardIdsRoundTrip(cardIds);
    assert value != "" by {
      JoinLength(seq(|cardIds|, i requires 0 <= i < |cardIds| => NatToString(cardIds[i])), ",");
    }
    assert '&' !in "single";
    ResumeUrlRoundTrip(sessionId, "single", GetItem(stored, PaymentModal.CardIdsKey),
                       GetItem(stored, PaymentModal.QuestionKey), GetItem(stored, PaymentModal.UserInfoKey), encode);
  }
}
