/** The two strings the client formats: the driver's connection string (main.go:119) and the describe query (main.go:195). */
module Formats {
  import opened Wrappers
  import opened Ascii

  /** `username:password@hostname:port/service`, the port in decimal. */
  function ConnectionString(username: string, password: string, hostname: string, service: string, port: int): string {
    username + ":" + password + "@" + hostname + ":" + Decimal(port) + "/" + service
  }

  datatype Login = Login(username: string, password: string, hostname: string, service: string, port: int)

  /** Splits `s` at the first occurrence of `sep`. */
  function SplitAt(s: string, sep: char): (r: Option<(string, string)>)
    ensures r.Some? ==> s == r.value.0 + [sep] + r.value.1 && sep !in r.value.0
    ensures r.None? ==> sep !in s
  {
    if s == [] then None
    else if s[0] == sep then Some(([], s[1..]))
    else match SplitAt(s[1..], sep)
      case None => None
      case Some(p) => Some(([s[0]] + p.0, p.1))
  }

  lemma {:induction false} SplitAtJoin(a: string, sep: char, b: string)
    requires sep !in a
    ensures SplitAt(a + [sep] + b, sep) == Some((a, b))
  {
    if a != [] {
      assert (a + [sep] + b)[1..] == a[1..] + [sep] + b;
      SplitAtJoin(a[1..], sep, b);
      assert (a + [sep] + b)[0] == a[0] != sep;
      assert [a[0]] + a[1..] == a;
    }
  }

  /** Reads a connection string back into its parts, splitting at the first `:`, `@`, `:` and `/`. */
  function ParseConnectionString(s: string): Option<Login> {
    match SplitAt(s, ':')
    case None => None
    case Some((username, r1)) =>
      match SplitAt(r1, '@')
      case None => None
      case Some((password, r2)) =>
        match SplitAt(r2, ':')
        case None => None
        case Some((hostname, r3)) =>
          match SplitAt(r3, '/')
          case None => None
          case Some((digits, service)) =>
            match ParseInt(digits)
            case None => None
            case Some(port) => Some(Login(username, password, hostname, service, port))
  }

  /**
   * The connection string keeps every part apart when the user name has no `:`,
   * the password no `@` and the host no `:`; the service may hold anything.
   */
  lemma ConnectionStringRoundTrip(username: string, password: string, hostname: string, service: string, port: int)
    requires ':' !in username && '@' !in password && ':' !in hostname
    ensures ParseConnectionString(ConnectionString(username, password, hostname, service, port))
         == Some(Login(username, password, hostname, service, port))
  {
    var digits := Decimal(port);
    var r3 := digits + "/" + service;
    var r2 := hostname + ":" + r3;
    var r1 := password + "@" + r2;
    assert ConnectionString(username, password, hostname, service, port) == username + [':'] + r1;
    SplitAtJoin(username, ':', r1);
    assert r1 == password + ['@'] + r2;
    SplitAtJoin(password, '@', r2);
    assert r2 == hostname + [':'] + r3;
    SplitAtJoin(hostname, ':', r3);
    assert '/' !in digits by {
      forall i | 0 <= i < |digits| ensures digits[i] != '/' {
      }
    }
    assert r3 == digits + ['/'] + service;
    SplitAtJoin(digits, '/', service);
    DecimalRoundTrip(port);
  }

  const DescribePrefix := "SELECT * FROM xxx WHERE = "

  /** The query `describe` sends; its argument is appended after a fixed, malformed prefix. */
  function DescribeQuery(table: string): string {
    DescribePrefix + table
  }
}
