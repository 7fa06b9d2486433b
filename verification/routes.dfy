/** Route paths and route registration of the three
    `registerFunctionsWithExpress` variants (src/expressHelpers.ts,
    module/src/index.ts, src/index.ts): the API prefix is split on `/`, its
    empty segments dropped and the rest joined back with `/`. */
module Routes {
  import opened JsValues

  /** `s.split('/')`: the pieces between slashes, with an empty piece before
      a leading slash, after a trailing one and between two adjacent ones;
      the empty string splits into one empty piece. */
  function Split(s: string): (parts: seq<string>)
    ensures |parts| >= 1
    decreases |s|
  {
    if |s| == 0 then [""]
    else if s[0] == '/' then [""] + Split(s[1..])
    else
      var rest := Split(s[1..]);
      [[s[0]] + rest[0]] + rest[1..]
  }

  /** `parts.join('/')`. */
  function Join(parts: seq<string>): string
    decreases |parts|
  {
    if |parts| == 0 then ""
    else if |parts| == 1 then parts[0]
    else parts[0] + "/" + Join(parts[1..])
  }

  /** `.filter((n) => n.length > 0)`. */
  function NonEmpty(parts: seq<string>): (kept: seq<string>)
    ensures forall i | 0 <= i < |kept| :: kept[i] != ""
    ensures forall p | p in kept :: p in parts
    decreases |parts|
  {
    if |parts| == 0 then []
    else if parts[0] == "" then NonEmpty(parts[1..])
    else [parts[0]] + NonEmpty(parts[1..])
  }

  predicate NoSlash(s: string) {
    forall i | 0 <= i < |s| :: s[i] != '/'
  }

  /** The path segments a prefix stands for. */
  function Segments(prefix: string): seq<string> {
    NonEmpty(Split(prefix))
  }

  function RefinedPrefix(prefix: string): string {
    Join(Segments(prefix))
  }

  /** `/${refinedApiPath}/${fnName}`. */
  function ApiPath(prefix: string, fnName: string): string {
    "/" + RefinedPrefix(prefix) + "/" + fnName
  }

  /** A route path is one slash, the prefix's segments, one slash and the
      name. A prefix with segments contributes no slash at either end, so
      the path never doubles a slash around it; a prefix without any leaves
      two leading slashes. */
  lemma ApiPathShape(prefix: string, fnName: string)
    ensures var p := ApiPath(prefix, fnName);
      && |p| >= 2 + |fnName| && p[0] == '/'
      && p[|p| - |fnName| - 1] == '/' && p[|p| - |fnName|..] == fnName
      && (Segments(prefix) != [] ==> |p| > 2 + |fnName| && p[1] != '/' && p[|p| - |fnName| - 2] != '/')
      && (Segments(prefix) == [] ==> p == "//" + fnName)
  {
    SegmentsHaveNoSlash(prefix);
    JoinEnds(Segments(prefix));
  }

  /** Joining non-empty, slash-free pieces gives a string that neither
      starts nor ends with a slash. */
  lemma {:induction false} JoinEnds(parts: seq<string>)
    requires forall i | 0 <= i < |parts| :: parts[i] != "" && NoSlash(parts[i])
    ensures parts != [] ==> |Join(parts)| > 0 && Join(parts)[0] != '/' && Join(parts)[|Join(parts)| - 1] != '/'
    decreases |parts|
  {
    if |parts| >= 2 {
      JoinEnds(parts[1..]);
      JoinUnfold(parts);
      assert Join(parts)[0] == parts[0][0];
      assert Join(parts)[|Join(parts)| - 1] == Join(parts[1..])[|Join(parts[1..])| - 1];
    } else if |parts| == 1 {
      assert Join(parts)[0] == parts[0][0];
      assert Join(parts)[|Join(parts)| - 1] == parts[0][|parts[0]| - 1];
    }
  }

  lemma {:induction false} SplitPiecesHaveNoSlash(s: string)
    ensures forall i | 0 <= i < |Split(s)| :: NoSlash(Split(s)[i])
    decreases |s|
  {
    if |s| > 0 {
      SplitPiecesHaveNoSlash(s[1..]);
      var rest := Split(s[1..]);
      if s[0] != '/' {
        assert NoSlash(rest[0]);
        assert NoSlash([s[0]] + rest[0]);
      }
    }
  }

  lemma JoinUnfold(parts: seq<string>)
    requires |parts| >= 2
    ensures Join(parts) == parts[0] + "/" + Join(parts[1..])
  {
  }

  /** Joining the pieces of a split gives the string back. */
  lemma {:induction false} JoinSplit(s: string)
    ensures Join(Split(s)) == s
    decreases |s|
  {
    if |s| > 0 {
      var rest := Split(s[1..]);
      JoinSplit(s[1..]);
      if s[0] == '/' {
        JoinUnfold([""] + rest);
        assert ([""] + rest)[1..] == rest;
        assert s == "/" + s[1..];
      } else {
        var first := [s[0]] + rest[0];
        if |rest| == 1 {
          assert Split(s) == [first];
          assert s == [s[0]] + s[1..];
        } else {
          JoinUnfold(rest);
          JoinUnfold([first] + rest[1..]);
          assert ([first] + rest[1..])[1..] == rest[1..];
          assert s == [s[0]] + s[1..];
        }
      }
    }
  }

  /** Splitting a slash-free word followed by more text extends the first
      piece of the rest. */
  lemma {:induction false} SplitAfterWord(a: string, t: string)
    requires NoSlash(a)
    ensures Split(a + t) == [a + Split(t)[0]] + Split(t)[1..]
    decreases |a|
  {
    if |a| > 0 {
      assert (a + t)[1..] == a[1..] + t;
      SplitAfterWord(a[1..], t);
      assert [a[0]] + (a[1..] + Split(t)[0]) == a + Split(t)[0];
    } else {
      assert a + t == t;
      assert a + Split(t)[0] == Split(t)[0];
      assert Split(t) == [Split(t)[0]] + Split(t)[1..];
    }
  }

  /** Splitting the join of slash-free pieces gives the pieces back. */
  lemma {:induction false} SplitJoin(parts: seq<string>)
    requires |parts| >= 1
    requires forall i | 0 <= i < |parts| :: NoSlash(parts[i])
    ensures Split(Join(parts)) == parts
    decreases |parts|
  {
    if |parts| == 1 {
      SplitAfterWord(parts[0], "");
      assert parts[0] + "" == parts[0];
    } else {
      var t := Join(parts[1..]);
      SplitJoin(parts[1..]);
      assert Split("/" + t) == [""] + Split(t) by {
        assert ("/" + t)[1..] == t;
      }
      assert parts[0] + "/" + t == parts[0] + ("/" + t);
      SplitAfterWord(parts[0], "/" + t);
      assert parts[0] + "" == parts[0];
    }
  }

  lemma {:induction false} NonEmptyKeepsNonEmpty(parts: seq<string>)
    requires forall i | 0 <= i < |parts| :: parts[i] != ""
    ensures NonEmpty(parts) == parts
    decreases |parts|
  {
    if |parts| > 0 {
      NonEmptyKeepsNonEmpty(parts[1..]);
    }
  }

  lemma {:induction false} SegmentsHaveNoSlash(prefix: string)
    ensures forall i | 0 <= i < |Segments(prefix)| :: NoSlash(Segments(prefix)[i])
  {
    SplitPiecesHaveNoSlash(prefix);
    var segs := Segments(prefix);
    forall i | 0 <= i < |segs| ensures NoSlash(segs[i]) {
      assert segs[i] in segs;
      var j :| 0 <= j < |Split(prefix)| && Split(prefix)[j] == segs[i];
    }
  }

  /** The refined prefix carries exactly the prefix's non-empty segments:
      splitting it again and dropping empty pieces gives them back. */
  lemma {:induction false} RefinedKeepsSegments(prefix: string)
    ensures Segments(RefinedPrefix(prefix)) == Segments(prefix)
  {
    var segs := Segments(prefix);
    if |segs| == 0 {
      assert RefinedPrefix(prefix) == "";
    } else {
      SegmentsHaveNoSlash(prefix);
      SplitJoin(segs);
      NonEmptyKeepsNonEmpty(segs);
    }
  }

  /** Normalising an already normalised prefix changes nothing, so the route
      path of a refined prefix is the route path of the original. */
  lemma RefiningIsIdempotent(prefix: string, fnName: string)
    ensures RefinedPrefix(RefinedPrefix(prefix)) == RefinedPrefix(prefix)
    ensures ApiPath(RefinedPrefix(prefix), fnName) == ApiPath(prefix, fnName)
  {
    RefinedKeepsSegments(prefix);
  }

  /** Two prefixes give a function the same route path exactly when they
      have the same non-empty segments. */
  lemma {:induction false} SamePathIffSameSegments(p1: string, p2: string, fnName: string)
    ensures ApiPath(p1, fnName) == ApiPath(p2, fnName) <==> Segments(p1) == Segments(p2)
  {
    if ApiPath(p1, fnName) == ApiPath(p2, fnName) {
      var r1, r2 := RefinedPrefix(p1), RefinedPrefix(p2);
      assert |r1| == |r2|;
      assert r1 == ApiPath(p1, fnName)[1..1 + |r1|];
      assert r2 == ApiPath(p2, fnName)[1..1 + |r2|];
      RefinedKeepsSegments(p1);
      RefinedKeepsSegments(p2);
    }
  }

  /** `api`, `/api/` and `//api//` name the same route, and a prefix with no
      segments gives a path with two leading slashes. */
  lemma PrefixSpellings(fnName: string)
    ensures ApiPath("api", fnName) == "/api/" + fnName
    ensures ApiPath("/api/", fnName) == "/api/" + fnName
    ensures ApiPath("//api//", fnName) == "/api/" + fnName
    ensures ApiPath("", fnName) == "//" + fnName
    ensures ApiPath("///", fnName) == "//" + fnName
  {
    SpelledBare(fnName);
    SpelledSlashed(fnName);
    SpelledDoublySlashed(fnName);
    SpelledSlashesOnly(fnName);
  }

  lemma SpelledBare(fnName: string)
    ensures ApiPath("api", fnName) == "/api/" + fnName
  {
    PathOfSpelling(["api"], "api", fnName);
  }

  lemma SpelledSlashed(fnName: string)
    ensures ApiPath("/api/", fnName) == "/api/" + fnName
  {
    PathOfSpelling(["", "api", ""], "/api/", fnName);
  }

  lemma SpelledDoublySlashed(fnName: string)
    ensures ApiPath("//api//", fnName) == "/api/" + fnName
  {
    PathOfSpelling(["", "", "api", "", ""], "//api//", fnName);
  }

  lemma SpelledSlashesOnly(fnName: string)
    ensures ApiPath("///", fnName) == "//" + fnName
  {
    PathOfSpelling(["", "", "", ""], "///", fnName);
  }

  /** The route path of a prefix spelled as the given slash-free pieces. */
  lemma PathOfSpelling(parts: seq<string>, prefix: string, fnName: string)
    requires |parts| >= 1
    requires forall i | 0 <= i < |parts| :: NoSlash(parts[i])
    requires Join(parts) == prefix
    ensures ApiPath(prefix, fnName) == "/" + Join(NonEmpty(parts)) + "/" + fnName
  {
    SplitOfJoin(parts, prefix);
  }

  /** A concrete split, read off the join it inverts. */
  lemma SplitOfJoin(parts: seq<string>, s: string)
    requires |parts| >= 1
    requires forall i | 0 <= i < |parts| :: NoSlash(parts[i])
    requires Join(parts) == s
    ensures Split(s) == parts
  {
    SplitJoin(parts);
  }

  // ---------------------------------------------------------------------
  // Registration

  /** Which `registerFunctionsWithExpress` is meant: src/expressHelpers.ts,
      module/src/index.ts, or src/index.ts (which has no auth gate). */
  datatype Variant = Current | Legacy | Open

  /** One `expressApp.post` registration. `authorised` is `hasAuthFn`, fixed
      when the route is registered. */
  datatype Route = Route(path: string, fnName: string, authorised: bool)

  /** What registration leaves behind: the routes posted, the console lines
      naming a path or a function, and the exception that stopped it, if
      one did. */
  datatype Announcement = Info(path: string) | Warning(fnName: string)
  datatype Registration = Registration(routes: seq<Route>, announced: seq<Announcement>, threw: Option<JsValue>)

  /** `typeof p.fns[fnName][p.fnAuthKey] === 'function'`, or the TypeError
      reading a property off an `undefined` or `null` entry throws. */
  function AuthCheck(fnValue: JsValue, authKey: string): (c: Completion)
    ensures c.Thrown? <==> IsNullish(fnValue)
    ensures c.Normal? ==> c.value == Bool(GetProp(fnValue, authKey).value.Func?)
  {
    match GetProp(fnValue, authKey)
    case Thrown(e) => Thrown(e)
    case Normal(v) => Normal(Bool(v.Func?))
  }

  /** What the variant prints while registering one name. */
  function Announce(v: Variant, path: string, fnName: string, authorised: bool): seq<Announcement> {
    match v
    case Current => if authorised then [Info(path)] else []
    case Legacy => (if authorised then [] else [Warning(fnName)]) + [Info(path)]
    case Open => [Info(path)]
  }

  /** The registration loop over `Object.keys(fns)`, given in order as
      `names` with the values `fns` holds under them. The open variant never
      reads an auth property, so it cannot throw. */
  function Register(v: Variant, names: seq<string>, fns: map<string, JsValue>, authKey: string, prefix: string): (r: Registration)
    requires forall i | 0 <= i < |names| :: names[i] in fns
    ensures |r.routes| <= |names|
    ensures forall i | 0 <= i < |r.routes| ::
      r.routes[i].fnName == names[i] && r.routes[i].path == ApiPath(prefix, names[i])
    decreases |names|
  {
    if names == [] then Registration([], [], None)
    else
      var n := names[0];
      var path := ApiPath(prefix, n);
      var check := if v.Open? then Normal(Bool(false)) else AuthCheck(fns[n], authKey);
      match check
      case Thrown(e) => Registration([], [], Some(e))
      case Normal(b) =>
        var authorised := !v.Open? && b == Bool(true);
        var rest := Register(v, names[1..], fns, authKey, prefix);
        Registration([Route(path, n, authorised)] + rest.routes,
                     Announce(v, path, n, authorised) + rest.announced, rest.threw)
  }

  /** The index of the first entry registration cannot read an auth
      property from. */
  predicate FirstNullish(names: seq<string>, fns: map<string, JsValue>, k: nat)
    requires forall i | 0 <= i < |names| :: names[i] in fns
  {
    k < |names| && IsNullish(fns[names[k]]) && forall i | 0 <= i < k :: !IsNullish(fns[names[i]])
  }

  /** Every name gets a route, authorised or not, unless an `undefined` or
      `null` entry stops the loop with a TypeError: then exactly the names
      before it are registered. The open variant registers every name and
      never authorises; the others authorise exactly the names whose entry
      carries a function under the auth key. */
  lemma RegistersEveryName(v: Variant, names: seq<string>, fns: map<string, JsValue>,
                           authKey: string, prefix: string)
    requires forall i | 0 <= i < |names| :: names[i] in fns
    ensures var r := Register(v, names, fns, authKey, prefix);
      && (r.threw.None? <==> v.Open? || forall i | 0 <= i < |names| :: !IsNullish(fns[names[i]]))
      && (r.threw.None? ==> |r.routes| == |names|)
      && (r.threw.Some? ==> r.threw == Some(TypeErrorOnNullish) && FirstNullish(names, fns, |r.routes|))
      && (forall i | 0 <= i < |r.routes| ::
            r.routes[i].authorised <==> !v.Open? && GetProp(fns[names[i]], authKey).value.Func?)
  {
    RegisterCompletes(v, names, fns, authKey, prefix);
    RegisterStopsAtFirstNullish(v, names, fns, authKey, prefix);
    RegisterAuthorises(v, names, fns, authKey, prefix);
  }

  /** The registration loop runs to the end iff no entry it reads is
      nullish. */
  lemma {:induction false} RegisterCompletes(v: Variant, names: seq<string>, fns: map<string, JsValue>,
                                             authKey: string, prefix: string)
    requires forall i | 0 <= i < |names| :: names[i] in fns
    ensures var r := Register(v, names, fns, authKey, prefix);
      && (r.threw.None? <==> v.Open? || forall i | 0 <= i < |names| :: !IsNullish(fns[names[i]]))
      && (r.threw.None? ==> |r.routes| == |names|)
    decreases |names|
  {
    if names != [] {
      RegisterCompletes(v, names[1..], fns, authKey, prefix);
      RegisterStep(v, names, fns, authKey, prefix);
      if v.Open? || !IsNullish(fns[names[0]]) {
        forall i | 0 < i < |names| ensures names[i] == names[1..][i - 1] {
        }
      }
    }
  }

  /** A loop that stops does so at the first nullish entry, with the
      TypeError reading its auth property throws. */
  lemma {:induction false} RegisterStopsAtFirstNullish(v: Variant, names: seq<string>, fns: map<string, JsValue>,
                                                       authKey: string, prefix: string)
    requires forall i | 0 <= i < |names| :: names[i] in fns
    ensures var r := Register(v, names, fns, authKey, prefix);
      r.threw.Some? ==> r.threw == Some(TypeErrorOnNullish) && FirstNullish(names, fns, |r.routes|)
    decreases |names|
  {
    if names != [] {
      var r := Register(v, names, fns, authKey, prefix);
      var rest := Register(v, names[1..], fns, authKey, prefix);
      RegisterStopsAtFirstNullish(v, names[1..], fns, authKey, prefix);
      RegisterStep(v, names, fns, authKey, prefix);
      RegisterCompletes(v, names[1..], fns, authKey, prefix);
      if (v.Open? || !IsNullish(fns[names[0]])) && rest.threw.Some? {
        assert FirstNullish(names[1..], fns, |rest.routes|);
        forall i | 0 <= i < |r.routes| ensures !IsNullish(fns[names[i]]) {
          if i > 0 {
            assert names[i] == names[1..][i - 1];
          }
        }
      }
    }
  }

  /** One turn of the registration loop: an entry that can be read adds one
      route and leaves the outcome to the rest; one that cannot stops the
      loop with a TypeError. */
  lemma RegisterStep(v: Variant, names: seq<string>, fns: map<string, JsValue>, authKey: string, prefix: string)
    requires forall i | 0 <= i < |names| :: names[i] in fns
    requires names != []
    ensures var r := Register(v, names, fns, authKey, prefix);
      var rest := Register(v, names[1..], fns, authKey, prefix);
      if v.Open? || !IsNullish(fns[names[0]]) then
        |r.routes| == 1 + |rest.routes| && r.threw == rest.threw &&
        forall i | 0 < i < |r.routes| :: r.routes[i] == rest.routes[i - 1]
      else
        r.routes == [] && r.threw == Some(TypeErrorOnNullish)
  {
  }

  /** Which registered routes are authorised. */
  lemma {:induction false} RegisterAuthorises(v: Variant, names: seq<string>, fns: map<string, JsValue>,
                                              authKey: string, prefix: string)
    requires forall i | 0 <= i < |names| :: names[i] in fns
    ensures var r := Register(v, names, fns, authKey, prefix);
      forall i | 0 <= i < |r.routes| :: v.Open? || !IsNullish(fns[names[i]])
    ensures var r := Register(v, names, fns, authKey, prefix);
      forall i | 0 <= i < |r.routes| ::
        r.routes[i].authorised <==> !v.Open? && GetProp(fns[names[i]], authKey).value.Func?
    decreases |names|
  {
    if names != [] {
      var r := Register(v, names, fns, authKey, prefix);
      var rest := Register(v, names[1..], fns, authKey, prefix);
      RegisterAuthorises(v, names[1..], fns, authKey, prefix);
      if v.Open? || !IsNullish(fns[names[0]]) {
        forall i | 0 <= i < |r.routes|
          ensures v.Open? || !IsNullish(fns[names[i]])
          ensures r.routes[i].authorised <==> !v.Open? && GetProp(fns[names[i]], authKey).value.Func?
        {
          if i > 0 {
            assert r.routes[i] == rest.routes[i - 1];
            assert names[i] == names[1..][i - 1];
          }
        }
      }
    }
  }

  /** The current variant prints a path only for the routes it authorises;
      the older one prints every path and warns about each unauthorised
      name. */
  lemma AnnouncementsOfOneName(path: string, fnName: string, authorised: bool)
    ensures Info(path) in Announce(Current, path, fnName, authorised) <==> authorised
    ensures Info(path) in Announce(Legacy, path, fnName, authorised)
    ensures Warning(fnName) in Announce(Legacy, path, fnName, authorised) <==> !authorised
  {
    if !authorised {
      assert Announce(Legacy, path, fnName, authorised)[0] == Warning(fnName);
    }
  }
}
