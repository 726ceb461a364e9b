/**
 Signed URLs: the query is taken apart, the `auth_key` parameter is checked against the keys and the clock, and the
 request goes on without it. The digest is a function that is not looked into.
 */
module UrlAuthenticator {
  import opened Options
  import opened Texts

  // ---------------------------------------------------------------- the query

  datatype Query = Query(authKey: string, retained: seq<string>, count: nat)

  function Name(parameter: string): string { parameter[..Index(parameter, '=')] }

  /** One parameter of the query. */
  function Collect(q: Query, parameter: string): Query {
    var equals := Index(parameter, '=');
    var name := parameter[..equals];
    if name == "auth_key" then
      q.(count := q.count + 1, authKey := if equals < |parameter| then parameter[equals + 1..] else q.authKey)
    else if name != "sign" && name != "time" && parameter != [] then q.(retained := q.retained + [parameter])
    else q
  }

  function CollectAll(q: Query, parameters: seq<string>): Query
    decreases |parameters|
  {
    if parameters == [] then q else CollectAll(Collect(q, parameters[0]), parameters[1..])
  }

  const NO_QUERY := Query([], [], 0)

  function ParsedQuery(query: string): Query { CollectAll(NO_QUERY, Split(query, '&')) }

  method ParseQuery(text: string) returns (result: Query)
    ensures result == ParsedQuery(text)
  {
    result := NO_QUERY;
    var query := text;
    while query != []
      invariant CollectAll(result, Split(query, '&')) == ParsedQuery(text)
      decreases |query|
    {
      var separator := Index(query, '&');
      var rest := if separator == |query| then [] else Split(query[separator + 1..], '&');
      SplitStep(query, '&', separator);
      assert Split(query, '&')[1..] == rest;
      result := Collect(result, query[..separator]);
      if separator == |query| {
        assert CollectAll(result, []) == ParsedQuery(text);
        return;
      }
      query := query[separator + 1..];
    }
    EmptyQuery(result);
  }

  lemma EmptyQuery(q: Query)
    ensures CollectAll(q, Split([], '&')) == q
  {
    SplitWhole([], '&');
    var none: string := [];
    assert Split(none, '&') == [none] && Name(none) == [];
    assert Collect(q, none) == q;
    assert [none][1..] == [];
  }

  // ---------------------------------------------------------------- the rewritten target

  function Cleaned(path: string, parameters: seq<string>): string {
    if parameters == [] then path else path + ['?'] + Join(parameters, '&')
  }

  method CleanedTarget(path: string, parameters: seq<string>) returns (result: string)
    ensures result == Cleaned(path, parameters)
  {
    result := path;
    if parameters == [] {
      return;
    }
    result := result + ['?'];
    var index := 0;
    while index < |parameters|
      invariant 0 <= index <= |parameters|
      invariant result == path + ['?'] + Join(parameters[..index], '&')
    {
      JoinAppend(parameters[..index], parameters[index], '&');
      assert parameters[..index + 1] == parameters[..index] + [parameters[index]];
      if index != 0 {
        result := result + ['&'];
      }
      result := result + parameters[index];
      index := index + 1;
    }
    assert parameters[..index] == parameters;
  }

  lemma {:induction false} JoinAppend(parts: seq<string>, last: string, c: char)
    ensures Join(parts + [last], c) == if parts == [] then last else Join(parts, c) + [c] + last
  {
    var all := parts + [last];
    if |parts| > 0 {
      assert all[0] == parts[0] && all[1..] == parts[1..] + [last];
      JoinAppend(parts[1..], last, c);
      if |parts| == 1 {
        assert parts[1..] == [];
      }
    }
  }

  /** What every retained parameter is like. */
  predicate Retainable(parameter: string) {
    && parameter != [] && '&' !in parameter
    && Name(parameter) != "auth_key" && Name(parameter) != "sign" && Name(parameter) != "time"
  }

  lemma {:induction false} CollectedAreRetainable(q: Query, parameters: seq<string>)
    requires (forall p :: p in q.retained ==> Retainable(p)) && (forall p :: p in parameters ==> '&' !in p)
    ensures forall p :: p in CollectAll(q, parameters).retained ==> Retainable(p)
    decreases |parameters|
  {
    if parameters != [] {
      assert parameters[0] in parameters;
      CollectedAreRetainable(Collect(q, parameters[0]), parameters[1..]);
    }
  }

  lemma {:induction false} CollectRetained(q: Query, parameters: seq<string>)
    requires forall p :: p in parameters ==> Retainable(p)
    ensures CollectAll(q, parameters) == q.(retained := q.retained + parameters)
    decreases |parameters|
  {
    if parameters == [] {
      assert q.retained + parameters == q.retained;
    } else {
      assert parameters[0] in parameters;
      var next := Collect(q, parameters[0]);
      assert next == q.(retained := q.retained + [parameters[0]]);
      CollectRetained(next, parameters[1..]);
      assert q.retained + [parameters[0]] + parameters[1..] == q.retained + parameters;
    }
  }

  /** Where a target's query starts. */
  function PathOf(target: string): string { target[..Index(target, '?')] }

  function QueryOf(target: string): string {
    var i := Index(target, '?');
    if i == |target| then [] else target[i + 1..]
  }

  lemma TargetParts(path: string, query: string)
    requires '?' !in path
    ensures var target := path + ['?'] + query;
      Index(target, '?') == |path| && PathOf(target) == path && QueryOf(target) == query
  {
    var target := path + ['?'] + query;
    assert target[0..|path|] == path && target[|path|] == '?' && target[|path| + 1..] == query;
    IndexUnique(target, '?', 0, |path|);
  }

  /** The rewritten target has the same path, the same retained parameters in order, and no `auth_key`. */
  lemma RewrittenTargetReparses(path: string, query: string)
    requires '?' !in path
    ensures var kept := ParsedQuery(query).retained;
      var target := Cleaned(path, kept);
      PathOf(target) == path && ParsedQuery(QueryOf(target)) == Query([], kept, 0)
  {
    var kept := ParsedQuery(query).retained;
    PartsAreFree(query, '&');
    CollectedAreRetainable(NO_QUERY, Split(query, '&'));
    if kept == [] {
      assert path[0..|path|] == path;
      IndexUnique(path, '?', 0, |path|);
      EmptyQuery(NO_QUERY);
    } else {
      TargetParts(path, Join(kept, '&'));
      SplitOfJoin(kept, '&');
      CollectRetained(NO_QUERY, kept);
      assert NO_QUERY.retained + kept == kept;
    }
  }

  /** How many of the parameters have the name. */
  function Named(parameters: seq<string>, name: string): nat
    decreases |parameters|
  {
    if parameters == [] then 0 else (if Name(parameters[0]) == name then 1 else 0) + Named(parameters[1..], name)
  }

  lemma {:induction false} CollectedIff(q: Query, parameters: seq<string>, p: string)
    ensures var r := CollectAll(q, parameters);
      && r.count == q.count + Named(parameters, "auth_key")
      && (p in r.retained <==>
            p in q.retained ||
            (p in parameters && p != [] && Name(p) != "auth_key" && Name(p) != "sign" && Name(p) != "time"))
    decreases |parameters|
  {
    if parameters != [] {
      CollectedIff(Collect(q, parameters[0]), parameters[1..], p);
      assert parameters == [parameters[0]] + parameters[1..];
    }
  }

  /** A query keeps exactly its parameters with other names, and counts the signatures. */
  lemma QueryKeeps(query: string, p: string)
    ensures ParsedQuery(query).count == Named(Split(query, '&'), "auth_key")
    ensures p in ParsedQuery(query).retained <==>
      p in Split(query, '&') && p != [] && Name(p) != "auth_key" && Name(p) != "sign" && Name(p) != "time"
  {
    CollectedIff(NO_QUERY, Split(query, '&'), p);
  }

  // ---------------------------------------------------------------- authenticating

  datatype Rule = Rule(prefix: bool, path: string)

  datatype Spec = Spec(enabled: bool, all: bool, primary: string, backup: string, validity: nat, rules: seq<Rule>)

  datatype Result = Unprotected | Denied | Granted(target: string)

  /** The digest in hexadecimal, or nothing if it cannot be computed. */
  type Digest = string -> Option<string>

  predicate Applies(rule: Rule, path: string) { if rule.prefix then rule.path <= path else path == rule.path }

  predicate Protects(spec: Spec, path: string) {
    spec.all || exists i :: 0 <= i < |spec.rules| && Applies(spec.rules[i], path)
  }

  predicate Digits(s: string) { forall i :: 0 <= i < |s| ==> '0' <= s[i] <= '9' }

  predicate LowerHex(s: string) {
    |s| == 32 && forall i :: 0 <= i < 32 ==> '0' <= s[i] <= '9' || 'a' <= s[i] <= 'f'
  }

  function Number(s: string): nat
    requires Digits(s)
  {
    if s == [] then 0 else Number(s[..|s| - 1]) * 10 + (s[|s| - 1] - '0') as nat
  }

  datatype Fields = Fields(timestamp: string, random: string, uid: string, digest: string)

  /** The text between exactly three dashes. */
  function FieldsOf(key: string): Option<Fields> {
    var first := Index(key, '-');
    if first == |key| then None
    else
      var second := IndexFrom(key, '-', first + 1);
      if second == |key| then None
      else
        var third := IndexFrom(key, '-', second + 1);
        if third == |key| || IndexFrom(key, '-', third + 1) != |key| then None
        else Some(Fields(key[..first], key[first + 1..second], key[second + 1..third], key[third + 1..]))
  }

  predicate WellFormed(f: Fields) {
    |f.timestamp| == 10 && f.random != [] && f.uid != [] && Digits(f.timestamp) && LowerHex(f.digest)
  }

  /** Not too far in the future, and not expired. */
  predicate InWindow(spec: Spec, timestamp: nat, now: int) {
    now >= 0 && timestamp <= now + 300 && now <= timestamp + spec.validity
  }

  function SigningText(path: string, f: Fields, key: string): string {
    path + ['-'] + f.timestamp + ['-'] + f.random + ['-'] + f.uid + ['-'] + key
  }

  predicate Matches(digest: Digest, path: string, f: Fields, key: string) {
    key != [] && digest(SigningText(path, f, key)) == Some(f.digest)
  }

  function Authenticate(spec: Spec, digest: Digest, target: string, now: int): Result {
    var position := Index(target, '?');
    var path := target[..position];
    if !spec.enabled || !Protects(spec, path) then Unprotected
    else if position == |target| then Denied
    else
      var parsed := ParsedQuery(target[position + 1..]);
      if parsed.count != 1 || parsed.authKey == [] then Denied
      else
        var fields := FieldsOf(parsed.authKey);
        if fields.None? || !WellFormed(fields.value) then Denied
        else if !InWindow(spec, Number(fields.value.timestamp), now) then Denied
        else if !Matches(digest, path, fields.value, spec.primary) && !Matches(digest, path, fields.value, spec.backup)
        then Denied
        else Granted(Cleaned(path, parsed.retained))
  }

  // ---------------------------------------------------------------- signing

  function KeyText(f: Fields): string { f.timestamp + ['-'] + f.random + ['-'] + f.uid + ['-'] + f.digest }

  predicate DashFree(f: Fields) {
    '-' !in f.timestamp && '-' !in f.random && '-' !in f.uid && '-' !in f.digest
  }

  /** A search after `before` finds the separator at the end of `a`. */
  lemma Cut(s: string, before: string, a: string, c: char, rest: string)
    requires s == before + a + [c] + rest && c !in a
    ensures var i, j := |before|, |before| + |a|; j < |s| && IndexFrom(s, c, i) == j && s[i..j] == a
  {
    var i, j := |before|, |before| + |a|;
    assert s[i..j] == a && s[j] == c;
    IndexUnique(s, c, i, j);
  }

  lemma CutLast(s: string, before: string, a: string, c: char)
    requires s == before + a && c !in a
    ensures IndexFrom(s, c, |before|) == |s| && s[|before|..] == a
  {
    assert s[|before|..|s|] == s[|before|..] == a;
    IndexUnique(s, c, |before|, |s|);
  }

  lemma CutTimestamp(f: Fields)
    requires DashFree(f)
    ensures var key, i := KeyText(f), |f.timestamp|;
      i < |key| && Index(key, '-') == i && key[..i] == f.timestamp
  {
    var key, rest := KeyText(f), f.random + ['-'] + f.uid + ['-'] + f.digest;
    assert key == [] + f.timestamp + ['-'] + rest;
    Cut(key, [], f.timestamp, '-', rest);
    assert key[..|f.timestamp|] == key[0..|f.timestamp|];
  }

  lemma CutRandom(f: Fields)
    requires DashFree(f)
    ensures var key, i := KeyText(f), |f.timestamp|;
      var j := i + 1 + |f.random|;
      j < |key| && IndexFrom(key, '-', i + 1) == j && key[i + 1..j] == f.random
  {
    var key, before, rest := KeyText(f), f.timestamp + ['-'], f.uid + ['-'] + f.digest;
    assert key == before + f.random + ['-'] + rest;
    Cut(key, before, f.random, '-', rest);
  }

  lemma CutUid(f: Fields)
    requires DashFree(f)
    ensures var key, j := KeyText(f), |f.timestamp| + 1 + |f.random|;
      var k := j + 1 + |f.uid|;
      k < |key| && IndexFrom(key, '-', j + 1) == k && key[j + 1..k] == f.uid
  {
    var key, before := KeyText(f), f.timestamp + ['-'] + f.random + ['-'];
    Cut(key, before, f.uid, '-', f.digest);
  }

  lemma CutDigest(f: Fields)
    requires DashFree(f)
    ensures var key, k := KeyText(f), |f.timestamp| + 1 + |f.random| + 1 + |f.uid|;
      k < |key| && IndexFrom(key, '-', k + 1) == |key| && key[k + 1..] == f.digest
  {
    var key, before := KeyText(f), f.timestamp + ['-'] + f.random + ['-'] + f.uid + ['-'];
    CutLast(key, before, f.digest, '-');
  }

  lemma FieldsAt(key: string, i: nat, j: nat, k: nat)
    requires i < j < k < |key| && Index(key, '-') == i && IndexFrom(key, '-', i + 1) == j
    requires IndexFrom(key, '-', j + 1) == k && IndexFrom(key, '-', k + 1) == |key|
    ensures FieldsOf(key) == Some(Fields(key[..i], key[i + 1..j], key[j + 1..k], key[k + 1..]))
  {
  }

  lemma FieldsFromCuts(key: string, f: Fields, i: nat, j: nat, k: nat)
    requires CutsFirst(key, f, i, j) && CutsLast(key, f, j, k)
    ensures FieldsOf(key) == Some(f)
  {
    FieldsAt(key, i, j, k);
  }

  /** The dashes at `i` and `j` enclose the fields before and between them. */
  predicate CutsFirst(key: string, f: Fields, i: nat, j: nat) {
    && i < j < |key| && Index(key, '-') == i && IndexFrom(key, '-', i + 1) == j
    && key[..i] == f.timestamp && key[i + 1..j] == f.random
  }

  predicate CutsLast(key: string, f: Fields, j: nat, k: nat) {
    && j < k < |key| && IndexFrom(key, '-', j + 1) == k && IndexFrom(key, '-', k + 1) == |key|
    && key[j + 1..k] == f.uid && key[k + 1..] == f.digest
  }

  lemma FirstTwo(f: Fields)
    requires DashFree(f)
    ensures CutsFirst(KeyText(f), f, |f.timestamp|, |f.timestamp| + 1 + |f.random|)
  {
    CutTimestamp(f);
    CutRandom(f);
  }

  lemma LastTwo(f: Fields)
    requires DashFree(f)
    ensures var j := |f.timestamp| + 1 + |f.random|; CutsLast(KeyText(f), f, j, j + 1 + |f.uid|)
  {
    CutUid(f);
    CutDigest(f);
  }

  lemma FieldsOfKeyText(f: Fields)
    requires DashFree(f)
    ensures FieldsOf(KeyText(f)) == Some(f)
  {
    FirstTwo(f);
    LastTwo(f);
    var i := |f.timestamp|;
    var j := i + 1 + |f.random|;
    FieldsFromCuts(KeyText(f), f, i, j, j + 1 + |f.uid|);
  }

  lemma Glue(key: string, i: nat, j: nat, k: nat)
    requires i < j < k < |key| && key[i] == key[j] == key[k] == '-'
    ensures key == key[..i] + ['-'] + key[i + 1..j] + ['-'] + key[j + 1..k] + ['-'] + key[k + 1..]
  {
    assert key == key[..k] + [key[k]] + key[k + 1..];
    assert key[..k] == key[..j] + [key[j]] + key[j + 1..k];
    assert key[..j] == key[..i] + [key[i]] + key[i + 1..j];
  }

  lemma KeyTextAt(key: string, i: nat, j: nat, k: nat)
    requires i < j < k < |key| && Index(key, '-') == i && IndexFrom(key, '-', i + 1) == j
    requires IndexFrom(key, '-', j + 1) == k && IndexFrom(key, '-', k + 1) == |key|
    ensures var f := Fields(key[..i], key[i + 1..j], key[j + 1..k], key[k + 1..]); DashFree(f) && KeyText(f) == key
  {
    assert key[k + 1..|key|] == key[k + 1..];
    Glue(key, i, j, k);
  }

  lemma KeyTextOfFields(key: string)
    ensures FieldsOf(key).Some? ==> DashFree(FieldsOf(key).value) && KeyText(FieldsOf(key).value) == key
  {
    if FieldsOf(key).Some? {
      var first := Index(key, '-');
      var second := IndexFrom(key, '-', first + 1);
      var third := IndexFrom(key, '-', second + 1);
      FieldsAt(key, first, second, third);
      KeyTextAt(key, first, second, third);
    }
  }

  /** The parameter that carries a signature. */
  function AuthParameter(f: Fields): string { "auth_key" + ['='] + KeyText(f) }

  lemma AuthParameterCollects(q: Query, f: Fields)
    ensures Collect(q, AuthParameter(f)) == q.(count := q.count + 1, authKey := KeyText(f))
  {
    var p, name := AuthParameter(f), "auth_key";
    assert p[..|name|] == p[0..|name|] == name && p[|name|] == '=' && p[|name| + 1..] == KeyText(f);
    IndexUnique(p, '=', 0, |name|);
  }

  lemma {:induction false} CollectAllAppend(q: Query, a: seq<string>, b: seq<string>)
    ensures CollectAll(q, a + b) == CollectAll(CollectAll(q, a), b)
    decreases |a|
  {
    if a == [] {
      assert a + b == b;
    } else {
      assert (a + b)[0] == a[0] && (a + b)[1..] == a[1..] + b;
      CollectAllAppend(Collect(q, a[0]), a[1..], b);
    }
  }

  /** A signed parameter among others: it is found, and the others are kept in order. */
  lemma SignedQueryParses(before: seq<string>, f: Fields, after: seq<string>)
    requires (forall p :: p in before ==> Retainable(p)) && (forall p :: p in after ==> Retainable(p))
    requires '&' !in AuthParameter(f)
    ensures ParsedQuery(Join(before + [AuthParameter(f)] + after, '&')) == Query(KeyText(f), before + after, 1)
  {
    var p := AuthParameter(f);
    var all := before + [p] + after;
    SplitOfJoin(all, '&');
    assert all == before + ([p] + after);
    CollectAllAppend(NO_QUERY, before, [p] + after);
    CollectRetained(NO_QUERY, before);
    assert NO_QUERY.retained + before == before;
    var q := Query([], before, 0);
    AuthParameterCollects(q, f);
    assert ([p] + after)[0] == p && ([p] + after)[1..] == after;
    CollectRetained(Query(KeyText(f), before, 1), after);
  }

  /** Who signs, when: what the issuer of a URL has to get right. */
  predicate Signs(spec: Spec, digest: Digest, path: string, f: Fields, key: string, now: int) {
    && '?' !in path && spec.enabled && Protects(spec, path)
    && key != [] && (key == spec.primary || key == spec.backup)
    && digest(SigningText(path, f, key)) == Some(f.digest)
    && WellFormed(f) && DashFree(f) && InWindow(spec, Number(f.timestamp), now)
  }

  /** Every signed URL is accepted, with any other parameters around the signature, and these are passed on. */
  lemma SignedIsAccepted(
    spec: Spec, digest: Digest, path: string, before: seq<string>, f: Fields, after: seq<string>, key: string, now: int)
    requires Signs(spec, digest, path, f, key, now) && '&' !in f.random && '&' !in f.uid
    requires (forall p :: p in before ==> Retainable(p)) && (forall p :: p in after ==> Retainable(p))
    ensures Authenticate(spec, digest, path + ['?'] + Join(before + [AuthParameter(f)] + after, '&'), now)
            == Granted(Cleaned(path, before + after))
  {
    var query := Join(before + [AuthParameter(f)] + after, '&');
    NoAmpersand(f);
    TargetParts(path, query);
    SignedQueryParses(before, f, after);
    FieldsOfKeyText(f);
  }

  lemma NoAmpersand(f: Fields)
    requires WellFormed(f) && '&' !in f.random && '&' !in f.uid
    ensures '&' !in AuthParameter(f)
  {
    assert '&' !in f.timestamp && '&' !in f.digest;
    assert '&' !in "auth_key";
  }

  // ---------------------------------------------------------------- what is accepted

  /** `target` carries one signature, `f`, made with `key` for its path and for this time. */
  predicate Carries(spec: Spec, digest: Digest, target: string, f: Fields, key: string, now: int) {
    var parsed := ParsedQuery(QueryOf(target));
    && Index(target, '?') < |target|
    && parsed.count == 1 && parsed.authKey == KeyText(f)
    && DashFree(f) && WellFormed(f) && InWindow(spec, Number(f.timestamp), now)
    && key != [] && (key == spec.primary || key == spec.backup)
    && digest(SigningText(PathOf(target), f, key)) == Some(f.digest)
  }

  /** A protected URL that is accepted carries exactly one `auth_key`, and its digest is that of one of the keys. */
  lemma AcceptedIsSigned(spec: Spec, digest: Digest, target: string, now: int) returns (f: Fields, key: string)
    requires Authenticate(spec, digest, target, now).Granted?
    ensures spec.enabled && Protects(spec, PathOf(target)) && Carries(spec, digest, target, f, key, now)
    ensures Authenticate(spec, digest, target, now)
            == Granted(Cleaned(PathOf(target), ParsedQuery(QueryOf(target)).retained))
  {
    var parsed := ParsedQuery(QueryOf(target));
    KeyTextOfFields(parsed.authKey);
    f := FieldsOf(parsed.authKey).value;
    key := if Matches(digest, PathOf(target), f, spec.primary) then spec.primary else spec.backup;
  }

  /** And one that carries a signature is accepted. */
  lemma CarryingIsAccepted(spec: Spec, digest: Digest, target: string, f: Fields, key: string, now: int)
    requires spec.enabled && Protects(spec, PathOf(target)) && Carries(spec, digest, target, f, key, now)
    ensures Authenticate(spec, digest, target, now).Granted?
  {
    FieldsOfKeyText(f);
  }

  // ---------------------------------------------------------------- which URLs need a signature, and when it is good

  /** A URL is left alone exactly if authentication is off, or neither everything nor its path is protected. */
  lemma UnprotectedIff(spec: Spec, digest: Digest, target: string, now: int)
    ensures var path := PathOf(target);
      Authenticate(spec, digest, target, now) == Unprotected <==>
      !spec.enabled ||
      (!spec.all && forall rule :: rule in spec.rules ==>
         path != rule.path && !(rule.prefix && |rule.path| <= |path| && path[..|rule.path|] == rule.path))
  {
    var path := PathOf(target);
    if i :| 0 <= i < |spec.rules| && Applies(spec.rules[i], path) {
      assert spec.rules[i] in spec.rules;
    }
    if rule :| rule in spec.rules && (path == rule.path ||
                                      (rule.prefix && |rule.path| <= |path| && path[..|rule.path|] == rule.path)) {
      var i :| 0 <= i < |spec.rules| && spec.rules[i] == rule;
      assert Applies(spec.rules[i], path);
    }
  }

  /** A URL that carries a signature is accepted exactly from 300 seconds before its time until its validity is over. */
  lemma InTimeIff(spec: Spec, digest: Digest, target: string, f: Fields, key: string, now: int)
    requires spec.enabled && Protects(spec, PathOf(target)) && Index(target, '?') < |target|
    requires ParsedQuery(QueryOf(target)).count == 1 && ParsedQuery(QueryOf(target)).authKey == KeyText(f)
    requires DashFree(f) && WellFormed(f) && key != [] && (key == spec.primary || key == spec.backup)
    requires digest(SigningText(PathOf(target), f, key)) == Some(f.digest)
    ensures Authenticate(spec, digest, target, now).Granted? <==>
      0 <= now && Number(f.timestamp) - 300 <= now <= Number(f.timestamp) + spec.validity
  {
    FieldsOfKeyText(f);
  }

  /** An accepted signature has ten digits of time, some random text, a user and 32 hexadecimal digits. */
  lemma AcceptedIsWellFormed(spec: Spec, digest: Digest, target: string, now: int) returns (f: Fields)
    requires Authenticate(spec, digest, target, now).Granted?
    ensures ParsedQuery(QueryOf(target)).authKey == Join([f.timestamp, f.random, f.uid, f.digest], '-')
    ensures |f.timestamp| == 10 && forall i :: 0 <= i < 10 ==> '0' <= f.timestamp[i] <= '9'
    ensures f.random != [] && f.uid != []
    ensures |f.digest| == 32
    ensures forall i :: 0 <= i < 32 ==> '0' <= f.digest[i] <= '9' || 'a' <= f.digest[i] <= 'f'
  {
    var key;
    f, key := AcceptedIsSigned(spec, digest, target, now);
    KeyTextIsJoined(f);
  }

  lemma JoinTwo(a: string, b: string)
    ensures Join([a, b], '-') == a + ['-'] + b
  {
    JoinStep(a, [b], '-');
    assert [a] + [b] == [a, b];
  }

  lemma JoinThree(a: string, b: string, c: string)
    ensures Join([a, b, c], '-') == a + ['-'] + (b + ['-'] + c)
  {
    JoinTwo(b, c);
    JoinStep(a, [b, c], '-');
    assert [a] + [b, c] == [a, b, c];
  }

  lemma JoinFour(a: string, b: string, c: string, d: string)
    ensures Join([a, b, c, d], '-') == a + ['-'] + (b + ['-'] + (c + ['-'] + d))
  {
    JoinThree(b, c, d);
    JoinStep(a, [b, c, d], '-');
    assert [a] + [b, c, d] == [a, b, c, d];
  }

  lemma JoinFive(a: string, b: string, c: string, d: string, e: string)
    ensures Join([a, b, c, d, e], '-') == a + ['-'] + (b + ['-'] + (c + ['-'] + (d + ['-'] + e)))
  {
    JoinFour(b, c, d, e);
    JoinStep(a, [b, c, d, e], '-');
    assert [a] + [b, c, d, e] == [a, b, c, d, e];
  }

  lemma RegroupDashes(a: string, b: string, c: string)
    ensures a + ['-'] + (b + ['-'] + c) == a + ['-'] + b + ['-'] + c
  {
  }

  lemma KeyTextIsJoined(f: Fields)
    ensures KeyText(f) == Join([f.timestamp, f.random, f.uid, f.digest], '-')
  {
    JoinFour(f.timestamp, f.random, f.uid, f.digest);
    RegroupDashes(f.timestamp, f.random, f.uid + ['-'] + f.digest);
    RegroupDashes(f.timestamp + ['-'] + f.random, f.uid, f.digest);
  }

  /** What is signed: path, time, random text, user and key, in this order. */
  lemma SigningTextIsJoined(path: string, f: Fields, key: string)
    ensures SigningText(path, f, key) == Join([path, f.timestamp, f.random, f.uid, key], '-')
  {
    JoinFive(path, f.timestamp, f.random, f.uid, key);
    RegroupDashes(path, f.timestamp, f.random + ['-'] + (f.uid + ['-'] + key));
    RegroupDashes(path + ['-'] + f.timestamp, f.random, f.uid + ['-'] + key);
    RegroupDashes(path + ['-'] + f.timestamp + ['-'] + f.random, f.uid, key);
  }

  /** The decimal digits of a number. */
  function Decimal(n: nat): string {
    if n < 10 then [('0' as int + n) as char] else Decimal(n / 10) + [('0' as int + n % 10) as char]
  }

  /** Reading a timestamp is the inverse of writing it. */
  lemma {:induction false} NumberOfDecimal(n: nat)
    ensures Digits(Decimal(n)) && Number(Decimal(n)) == n
  {
    var last := [('0' as int + n % 10) as char];
    if n >= 10 {
      NumberOfDecimal(n / 10);
      assert Decimal(n)[..|Decimal(n)| - 1] == Decimal(n / 10);
    } else {
      assert Decimal(n)[..0] == [];
    }
  }

  // ---------------------------------------------------------------- what a signature is good for

  predicate LetterOrDigit(c: char) { 'a' <= c <= 'z' || 'A' <= c <= 'Z' || '0' <= c <= '9' }

  /** What the constructor demands of a key. */
  predicate ValidKey(key: string) {
    key == [] || (6 <= |key| <= 128 && forall i :: 0 <= i < |key| ==> LetterOrDigit(key[i]))
  }

  lemma ValidKeyIsDashFree(key: string)
    requires ValidKey(key)
    ensures '-' !in key
  {
  }

  /** The last dash of a text separates it in one way. */
  lemma LastDash(a: string, b: string, c: string, d: string)
    requires a + ['-'] + b == c + ['-'] + d && '-' !in b && '-' !in d
    ensures a == c && b == d
  {
    var s := a + ['-'] + b;
    assert s[|a|] == '-' && s[|c|] == '-';
    assert s[|a| + 1..] == b && s[|c| + 1..] == d;
    assert |a| == |c|;
    assert s[..|a|] == a && s[..|c|] == c;
  }

  /** The signed text determines everything that was signed. */
  lemma SigningTextInjective(path: string, f: Fields, key: string, other: string, g: Fields, otherKey: string)
    requires DashFree(f) && DashFree(g) && '-' !in key && '-' !in otherKey
    requires SigningText(path, f, key) == SigningText(other, g, otherKey)
    ensures path == other && f.timestamp == g.timestamp && f.random == g.random && f.uid == g.uid && key == otherKey
  {
    var dash := ['-'];
    LastDash(path + dash + f.timestamp + dash + f.random + dash + f.uid, key,
             other + dash + g.timestamp + dash + g.random + dash + g.uid, otherKey);
    LastDash(path + dash + f.timestamp + dash + f.random, f.uid, other + dash + g.timestamp + dash + g.random, g.uid);
    LastDash(path + dash + f.timestamp, f.random, other + dash + g.timestamp, g.random);
    LastDash(path, f.timestamp, other, g.timestamp);
  }

  /**
   A signature cannot be moved: when two accepted URLs carry the same digest, they have the same path and the same
   timestamp, random text and user, unless the two texts that were signed for them differ and have the same digest.
   */
  lemma SignatureIsBound(
    spec: Spec, digest: Digest, target: string, f: Fields, key: string, now: int,
    other: string, g: Fields, otherKey: string, later: int)
    requires ValidKey(spec.primary) && ValidKey(spec.backup)
    requires Carries(spec, digest, target, f, key, now) && Carries(spec, digest, other, g, otherKey, later)
    requires f.digest == g.digest
    ensures var signed, otherSigned := SigningText(PathOf(target), f, key), SigningText(PathOf(other), g, otherKey);
      || (PathOf(target) == PathOf(other) && f == g && key == otherKey)
      || (signed != otherSigned && digest(signed) == digest(otherSigned))
  {
    ValidKeyIsDashFree(spec.primary);
    ValidKeyIsDashFree(spec.backup);
    var a, b := SigningText(PathOf(target), f, key), SigningText(PathOf(other), g, otherKey);
    if a == b {
      SigningTextInjective(PathOf(target), f, key, PathOf(other), g, otherKey);
    }
  }

  // ---------------------------------------------------------------- which signatures can be carried

  /** The number of dashes in a text. */
  function Dashes(s: string): nat { if s == [] then 0 else Dashes(s[1..]) + (if s[0] == '-' then 1 else 0) }

  lemma {:induction false} DashesAdd(a: string, b: string)
    ensures Dashes(a + b) == Dashes(a) + Dashes(b)
  {
    if a == [] {
      assert a + b == b;
    } else {
      assert (a + b)[0] == a[0] && (a + b)[1..] == a[1..] + b;
      DashesAdd(a[1..], b);
    }
  }

  lemma {:induction false} NoDashes(a: string)
    requires '-' !in a
    ensures Dashes(a) == 0
  {
    if a != [] {
      NoDashes(a[1..]);
    }
  }

  lemma KeyTextDashes(f: Fields)
    requires DashFree(f)
    ensures Dashes(KeyText(f)) == 3
  {
    var dash := ['-'];
    assert dash[1..] == [];
    assert Dashes(dash) == 1;
    NoDashes(f.timestamp);
    NoDashes(f.random);
    NoDashes(f.uid);
    NoDashes(f.digest);
    DashesAdd(f.timestamp, dash);
    DashesAdd(f.timestamp + dash, f.random);
    DashesAdd(f.timestamp + dash + f.random, dash);
    DashesAdd(f.timestamp + dash + f.random + dash, f.uid);
    DashesAdd(f.timestamp + dash + f.random + dash + f.uid, dash);
    DashesAdd(f.timestamp + dash + f.random + dash + f.uid + dash, f.digest);
  }

  /** A key with fewer dashes than a signature has is refused. */
  lemma FewDashesRefused(spec: Spec, digest: Digest, target: string, now: int)
    requires spec.enabled && Protects(spec, PathOf(target))
    requires ParsedQuery(QueryOf(target)).count != 1 || Dashes(ParsedQuery(QueryOf(target)).authKey) < 3
    ensures Authenticate(spec, digest, target, now) == Denied
  {
    if Authenticate(spec, digest, target, now).Granted? {
      var f, key := AcceptedIsSigned(spec, digest, target, now);
      KeyTextDashes(f);
    }
  }

  lemma {:induction false} CountGrows(q: Query, parameters: seq<string>)
    ensures var r := CollectAll(q, parameters); r.count >= q.count && (r.count == q.count ==> r.authKey == q.authKey)
    decreases |parameters|
  {
    if parameters != [] {
      CountGrows(Collect(q, parameters[0]), parameters[1..]);
    }
  }

  lemma IndexOfMember(s: string, c: char)
    requires c in s
    ensures Index(s, c) < |s|
  {
    assert s[..|s|] == s;
  }

  /** A key text that is cut short by an ampersand in a part `middle` of it, after fewer than three dashes. */
  lemma CutAt(head: string, middle: string, tail: string) returns (start: string, rest: string)
    requires '&' !in head && '&' in middle && '-' !in middle && Dashes(head) < 3
    ensures head + middle + tail == start + ['&'] + rest && '&' !in start && Dashes(start) < 3
  {
    var i := Index(middle, '&');
    IndexOfMember(middle, '&');
    start, rest := head + middle[..i], middle[i + 1..] + tail;
    assert middle == middle[..i] + ['&'] + middle[i + 1..];
    NoDashes(middle[..i]);
    DashesAdd(head, middle[..i]);
  }

  lemma FieldsDashes(timestamp: string, random: string)
    requires '-' !in timestamp && '-' !in random
    ensures Dashes(timestamp + ['-']) == 1 && Dashes(timestamp + ['-'] + random + ['-']) == 2
  {
    var dash := ['-'];
    assert dash[1..] == [];
    assert Dashes(dash) == 1;
    NoDashes(timestamp);
    NoDashes(random);
    DashesAdd(timestamp, dash);
    DashesAdd(timestamp + dash, random);
    DashesAdd(timestamp + dash + random, dash);
  }

  lemma CutShort(f: Fields) returns (start: string, rest: string)
    requires DashFree(f) && WellFormed(f) && ('&' in f.random || '&' in f.uid)
    ensures KeyText(f) == start + ['&'] + rest && '&' !in start && Dashes(start) < 3
  {
    assert '&' !in f.timestamp;
    FieldsDashes(f.timestamp, f.random);
    var dash := ['-'];
    if '&' in f.random {
      var tail := dash + f.uid + dash + f.digest;
      start, rest := CutAt(f.timestamp + dash, f.random, tail);
      assert KeyText(f) == f.timestamp + dash + f.random + tail;
    } else {
      var tail := dash + f.digest;
      start, rest := CutAt(f.timestamp + dash + f.random + dash, f.uid, tail);
      assert KeyText(f) == f.timestamp + dash + f.random + dash + f.uid + tail;
    }
  }

  lemma CutShortIsRefused(spec: Spec, digest: Digest, path: string, f: Fields, now: int)
    requires '?' !in path && spec.enabled && Protects(spec, path)
    requires DashFree(f) && WellFormed(f) && ('&' in f.random || '&' in f.uid)
    ensures Authenticate(spec, digest, path + ['?'] + AuthParameter(f), now) == Denied
  {
    var start, rest := CutShort(f);
    var name := "auth_key=";
    var p := name + start;
    assert AuthParameter(f) == p + ['&'] + rest;
    assert '&' !in name;
    SplitFirst(p, rest, '&');
    ShortParameterCollects(start);
    assert ([p] + Split(rest, '&'))[1..] == Split(rest, '&');
    CountGrows(Query(start, [], 1), Split(rest, '&'));
    TargetParts(path, AuthParameter(f));
    FewDashesRefused(spec, digest, path + ['?'] + AuthParameter(f), now);
  }

  lemma ShortParameterCollects(start: string)
    ensures Collect(NO_QUERY, "auth_key=" + start) == Query(start, [], 1)
  {
    var p, name := "auth_key=" + start, "auth_key";
    assert p[..|name|] == p[0..|name|] == name && p[|name|] == '=' && p[|name| + 1..] == start;
    IndexUnique(p, '=', 0, |name|);
  }

  /** A signature without other parameters is accepted exactly when its texts do not end the parameter early. */
  lemma SignedIsAcceptedIff(spec: Spec, digest: Digest, path: string, f: Fields, key: string, now: int)
    requires Signs(spec, digest, path, f, key, now)
    ensures Authenticate(spec, digest, path + ['?'] + AuthParameter(f), now) == Granted(path)
            <==> '&' !in f.random && '&' !in f.uid
  {
    if '&' !in f.random && '&' !in f.uid {
      SignedIsAccepted(spec, digest, path, [], f, [], key, now);
      var none: seq<string> := [];
      assert none + [AuthParameter(f)] + none == [AuthParameter(f)] && none + none == none;
    } else {
      CutShortIsRefused(spec, digest, path, f, now);
    }
  }
}
