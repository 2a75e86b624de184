/** Dispatch of an incoming request, by verb and path, to one of the five
    handlers or to the generic "Not Found" answer. */
module Router {

  /** Where a request goes. The id of the two by-id routes is the decoded
      digit segment of the path. */
  datatype Route =
    | Load
    | DeleteAllUsers
    | DeleteUser(id: nat)
    | GetUser(id: nat)
    | PutUser
    | NotFound

  /** `\d` in a JavaScript regular expression without the `u` flag: an ASCII
      decimal digit. */
  predicate IsDigit(c: char) { '0' <= c <= '9' }

  predicate AllDigits(s: string) {
    forall i :: 0 <= i < |s| ==> IsDigit(s[i])
  }

  const UsersPrefix: string := "/users/"

  /** `path.match(/^\/users\/\d+$/)`: the prefix `/users/` followed by one or
      more digits and nothing else. */
  predicate IsUserIdPath(path: string)
    ensures IsUserIdPath(path) <==> exists d :: path == UsersPrefix + d && d != [] && AllDigits(d)
  {
    && |path| > |UsersPrefix|
    && path[..|UsersPrefix|] == UsersPrefix
    && AllDigits(path[|UsersPrefix|..])
  }

  /** `s.split(sep)` for a one-character separator: the pieces between
      separators, with an empty piece before a leading separator, after a
      trailing one and between two adjacent ones. */
  function Split(s: string, sep: char): (r: seq<string>)
    ensures |r| >= 1
  {
    if s == [] then [""]
    else
      var rest := Split(s[1..], sep);
      if s[0] == sep then [""] + rest else [[s[0]] + rest[0]] + rest[1..]
  }

  /** `pieces.join(sep)`, the inverse of Split. */
  function Join(pieces: seq<string>, sep: char): string
    requires |pieces| >= 1
  {
    if |pieces| == 1 then pieces[0] else pieces[0] + [sep] + Join(pieces[1..], sep)
  }

  /** Joining the pieces gives the string back, and no piece holds the
      separator. */
  lemma {:induction false} SplitJoin(s: string, sep: char)
    ensures Join(Split(s, sep), sep) == s
    ensures forall j :: 0 <= j < |Split(s, sep)| ==> sep !in Split(s, sep)[j]
  {
    if s != [] {
      SplitJoin(s[1..], sep);
      var rest := Split(s[1..], sep);
      if s[0] == sep {
        assert Split(s, sep)[1..] == rest;
        assert s == [s[0]] + s[1..];
      } else {
        var r := Split(s, sep);
        assert r[1..] == rest[1..];
        if |rest| > 1 {
          assert rest == [rest[0]] + rest[1..];
          assert Join(rest, sep) == rest[0] + [sep] + Join(rest[1..], sep);
        }
        assert s == [s[0]] + s[1..];
        forall j | 0 <= j < |r| ensures sep !in r[j] {
          if j > 0 { assert r[j] == rest[j]; }
        }
      }
    }
  }

  /** A piece without the separator, followed by the separator and more. */
  lemma {:induction false} SplitAfterPiece(a: string, sep: char, b: string)
    requires sep !in a
    ensures Split(a + [sep] + b, sep) == [a] + Split(b, sep)
  {
    if a == [] {
      assert a + [sep] + b == [sep] + b;
      assert ([sep] + b)[1..] == b;
    } else {
      SplitAfterPiece(a[1..], sep, b);
      assert (a + [sep] + b)[1..] == a[1..] + [sep] + b;
      assert [a[0]] + a[1..] == a;
    }
  }

  lemma {:induction false} SplitWithoutSeparator(a: string, sep: char)
    requires sep !in a
    ensures Split(a, sep) == [a]
  {
    if a != [] {
      SplitWithoutSeparator(a[1..], sep);
      assert [a[0]] + a[1..] == a;
    }
  }

  /** The third piece of a by-id path, `path.split('/')[2]`, is its digit
      segment. */
  function UserIdSegment(path: string): (seg: string)
    requires IsUserIdPath(path)
    ensures seg == path[|UsersPrefix|..]
    ensures seg != [] && AllDigits(seg)
  {
    var d := path[|UsersPrefix|..];
    assert '/' !in d;
    assert path == "" + ['/'] + ("users" + ['/'] + d);
    SplitAfterPiece("", '/', "users" + ['/'] + d);
    SplitAfterPiece("users", '/', d);
    SplitWithoutSeparator(d, '/');
    Split(path, '/')[2]
  }

  function DigitValue(c: char): nat
    requires IsDigit(c)
  {
    (c - '0') as nat
  }

  /** `parseInt(s)` on a non-empty digit string: its decimal value. Leading
      zeros are allowed and ignored. */
  function ParseDecimal(s: string): (r: nat)
    requires AllDigits(s)
    ensures r < Pow10(|s|)
  {
    if s == [] then 0 else 10 * ParseDecimal(s[..|s| - 1]) + DigitValue(s[|s| - 1])
  }

  function Pow10(k: nat): (r: nat)
  {
    if k == 0 then 1 else 10 * Pow10(k - 1)
  }

  /** The decimal rendering of a natural number, as the template literal
      `${id}` writes it: no leading zeros, no sign. */
  function Decimal(n: nat): (s: string)
  {
    if n < 10 then [DigitChar(n)] else Decimal(n / 10) + [DigitChar(n % 10)]
  }

  function DigitChar(d: nat): (c: char)
    requires d < 10
    ensures IsDigit(c) && DigitValue(c) == d
  {
    ('0' as int + d) as char
  }

  /** Decimal writes a non-empty digit string that parses back to n. */
  lemma {:induction false} DecimalRoundTrip(n: nat)
    ensures Decimal(n) != [] && AllDigits(Decimal(n))
    ensures ParseDecimal(Decimal(n)) == n
    ensures n > 0 ==> Decimal(n)[0] != '0'
  {
    var s := Decimal(n);
    if n >= 10 {
      assert s[0] == Decimal(n / 10)[0];
      DecimalRoundTrip(n / 10);
      assert s[..|s| - 1] == Decimal(n / 10);
      assert s[|s| - 1] == DigitChar(n % 10);
      assert n == 10 * (n / 10) + n % 10;
    }
  }

  /** `${id}` for an integer id: a minus sign in front of negative ones. */
  function IntToString(i: int): (r: string)
    ensures r != [] && (r[0] == '-' <==> i < 0)
    ensures var digits := if i < 0 then r[1..] else r;
      && digits != [] && AllDigits(digits)
      && (|digits| > 1 ==> digits[0] != '0')
      && ParseDecimal(digits) == if i < 0 then -i else i
  {
    DecimalRoundTrip(if i < 0 then -i else i);
    if i < 0 then "-" + Decimal(-i) else Decimal(i)
  }

  /** The if/else chain of the request listener, in its order. */
  function RouteOf(verb: string, path: string): (r: Route)
    ensures r.DeleteUser? || r.GetUser? ==>
      IsUserIdPath(path) && r.id == ParseDecimal(path[|UsersPrefix|..])
  {
    if path == "/load" && verb == "GET" then Load
    else if path == "/users" && verb == "DELETE" then DeleteAllUsers
    else if IsUserIdPath(path) && verb == "DELETE" then DeleteUser(ParseDecimal(UserIdSegment(path)))
    else if IsUserIdPath(path) && verb == "GET" then GetUser(ParseDecimal(UserIdSegment(path)))
    else if path == "/users" && verb == "PUT" then PutUser
    else NotFound
  }

  /** Each handler is reached by exactly its verb and path, and every
      other request is answered "Not Found". */
  lemma RouteCharacterised(verb: string, path: string)
    ensures RouteOf(verb, path) == Load <==> verb == "GET" && path == "/load"
    ensures RouteOf(verb, path) == DeleteAllUsers <==> verb == "DELETE" && path == "/users"
    ensures RouteOf(verb, path) == PutUser <==> verb == "PUT" && path == "/users"
    ensures RouteOf(verb, path).DeleteUser? <==> verb == "DELETE" && IsUserIdPath(path)
    ensures RouteOf(verb, path).GetUser? <==> verb == "GET" && IsUserIdPath(path)
    ensures RouteOf(verb, path) == NotFound <==>
      !(verb == "GET" && path == "/load") &&
      !(path == "/users" && (verb == "DELETE" || verb == "PUT")) &&
      !(IsUserIdPath(path) && (verb == "DELETE" || verb == "GET"))
  {
    if IsUserIdPath(path) {
      assert path != "/load" && path != "/users" by {
        assert |path| > 7;
      }
    }
  }

  /** DELETE or GET on `/users/` followed by a non-empty digit string reaches
      the by-id handler with the decimal value of those digits. */
  lemma RouteById(d: string)
    requires d != [] && AllDigits(d)
    ensures RouteOf("DELETE", UsersPrefix + d) == DeleteUser(ParseDecimal(d))
    ensures RouteOf("GET", UsersPrefix + d) == GetUser(ParseDecimal(d))
  {
    var path := UsersPrefix + d;
    assert path[..|UsersPrefix|] == UsersPrefix && path[|UsersPrefix|..] == d;
    assert IsUserIdPath(path);
  }

  /** Every id can be addressed: the path `/users/<id>` reaches it. */
  lemma RouteReachesEveryId(id: nat)
    ensures RouteOf("GET", UsersPrefix + Decimal(id)) == GetUser(id)
    ensures RouteOf("DELETE", UsersPrefix + Decimal(id)) == DeleteUser(id)
  {
    DecimalRoundTrip(id);
    RouteById(Decimal(id));
  }

  /** Requests that look close to a route but are answered "Not Found". */
  lemma RouteNearMisses()
    ensures RouteOf("GET", "/users") == NotFound
    ensures RouteOf("PUT", "/users/5") == NotFound
    ensures RouteOf("GET", "/users/abc") == NotFound
    ensures RouteOf("GET", "/users/5/") == NotFound
    ensures RouteOf("DELETE", "/users/") == NotFound
    ensures RouteOf("POST", "/load") == NotFound
  {
    assert !AllDigits("/users/abc"[7..]) by { assert !IsDigit("/users/abc"[7]); }
    assert !AllDigits("/users/5/"[7..]) by { assert !IsDigit("/users/5/"[8]); }
  }
}
