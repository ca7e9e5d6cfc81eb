/**
  index.ts, `Field.connect`: build the token string from the credentials,
  overwrite the token file with it, then call the remote connect endpoint with it.
  `ParseToken` reads a token back into credentials; it is the partner that pins
  the `|`-separated layout down.
 */
module Connection {
  import opened JsValues

  datatype Credentials = Credentials(login: string, password: string, projectId: string)

  /** The token string: the labels `login`, `password` and `projectId`, each
      followed by its value, all joined by `|`. */
  function Token(auth: Credentials): (r: string)
    ensures var l, p, i := |auth.login|, |auth.password|, |auth.projectId|;
      |r| == 27 + l + p + i
      && r[..6] == "login|" && r[6..6 + l] == auth.login
      && r[6 + l..16 + l] == "|password|" && r[16 + l..16 + l + p] == auth.password
      && r[16 + l + p..27 + l + p] == "|projectId|" && r[27 + l + p..] == auth.projectId
  {
    "login|" + auth.login + "|password|" + auth.password + "|projectId|" + auth.projectId
  }

  /** `s.split(sep)`: the pieces between separators, in order. */
  function Split(s: string, sep: char): (parts: seq<string>)
    ensures |parts| >= 1
    ensures forall i :: 0 <= i < |parts| ==> sep !in parts[i]
    decreases |s|
  {
    if |s| == 0 then [""]
    else
      var rest := Split(s[1..], sep);
      if s[0] == sep then [""] + rest else [[s[0]] + rest[0]] + rest[1..]
  }

  /** `parts.join(sep)`. */
  function Join(parts: seq<string>, sep: char): string
    requires |parts| >= 1
  {
    if |parts| == 1 then parts[0] else parts[0] + [sep] + Join(parts[1..], sep)
  }

  lemma {:induction false} JoinSplit(s: string, sep: char)
    ensures Join(Split(s, sep), sep) == s
    decreases |s|
  {
    if |s| > 0 {
      var rest := Split(s[1..], sep);
      JoinSplit(s[1..], sep);
      if s[0] == sep {
        assert Split(s, sep)[1..] == rest;
        assert s == [sep] + s[1..];
      } else if |rest| == 1 {
        assert s == [s[0]] + s[1..];
      } else {
        assert Split(s, sep)[1..] == rest[1..];
        assert s == [s[0]] + s[1..];
      }
    }
  }

  lemma {:induction false} SplitNoSep(a: string, sep: char)
    requires sep !in a
    ensures Split(a, sep) == [a]
    decreases |a|
  {
    if |a| > 0 {
      SplitNoSep(a[1..], sep);
      assert a == [a[0]] + a[1..];
    }
  }

  lemma {:induction false} SplitAfter(a: string, b: string, sep: char)
    requires sep !in a
    ensures Split(a + [sep] + b, sep) == [a] + Split(b, sep)
    decreases |a|
  {
    if |a| == 0 {
      assert (a + [sep] + b)[1..] == b;
    } else {
      assert (a + [sep] + b)[1..] == a[1..] + [sep] + b;
      SplitAfter(a[1..], b, sep);
      assert a == [a[0]] + a[1..];
    }
  }

  lemma JoinSix(q: seq<string>, sep: char)
    requires |q| == 6
    ensures Join(q, sep) == q[0] + [sep] + (q[1] + [sep] + (q[2] + [sep] + (q[3] + [sep] + (q[4] + [sep] + q[5]))))
  {
    var q1, q2, q3, q4, q5 := q[1..], q[2..], q[3..], q[4..], q[5..];
    assert q1[1..] == q2 && q2[1..] == q3 && q3[1..] == q4 && q4[1..] == q5;
    assert Join(q5, sep) == q[5];
    assert Join(q4, sep) == q[4] + [sep] + Join(q5, sep);
    assert Join(q3, sep) == q[3] + [sep] + Join(q4, sep);
    assert Join(q2, sep) == q[2] + [sep] + Join(q3, sep);
    assert Join(q1, sep) == q[1] + [sep] + Join(q2, sep);
  }

  /** The token with its separators made explicit. */
  lemma TokenShape(auth: Credentials)
    ensures Token(auth) == "login" + ['|'] + (auth.login + ['|'] + ("password" + ['|']
                           + (auth.password + ['|'] + ("projectId" + ['|'] + auth.projectId))))
  {
  }

  /** Reads a token back: six `|`-separated pieces with the three fixed labels. */
  function ParseToken(s: string): Option<Credentials> {
    var p := Split(s, '|');
    if |p| == 6 && p[0] == "login" && p[2] == "password" && p[4] == "projectId"
    then Some(Credentials(p[1], p[3], p[5]))
    else None
  }

  predicate NoBar(auth: Credentials) {
    '|' !in auth.login && '|' !in auth.password && '|' !in auth.projectId
  }

  /** A token parses back to exactly the credentials it was built from when none
      of them contains `|`. */
  lemma TokenParses(auth: Credentials)
    requires NoBar(auth)
    ensures ParseToken(Token(auth)) == Some(auth)
  {
    var l, p, i := auth.login, auth.password, auth.projectId;
    TokenShape(auth);
    SplitNoSep(i, '|');
    SplitAfter("projectId", i, '|');
    SplitAfter(p, "projectId" + ['|'] + i, '|');
    SplitAfter("password", p + ['|'] + ("projectId" + ['|'] + i), '|');
    SplitAfter(l, "password" + ['|'] + (p + ['|'] + ("projectId" + ['|'] + i)), '|');
    SplitAfter("login", l + ['|'] + ("password" + ['|'] + (p + ['|'] + ("projectId" + ['|'] + i))), '|');
  }

  /** Every string that parses is the token of what it parses to. */
  lemma ParsedIsToken(s: string, auth: Credentials)
    requires ParseToken(s) == Some(auth)
    ensures NoBar(auth) && Token(auth) == s
  {
    var q := Split(s, '|');
    JoinSplit(s, '|');
    JoinSix(q, '|');
    TokenShape(auth);
  }

  /** The token file, read before every authenticated call. */
  class TokenFile {
    var contents: string

    constructor (initial: string)
      ensures contents == initial
    {
      contents := initial;
    }
  }

  /** What `connect` sends to the remote connect endpoint. */
  datatype ConnectRequest = ConnectRequest(token: string)

  /** `connect(auth)`: the file is overwritten before the request is made, so it
      holds the new token whatever the remote answers. */
  method Connect(file: TokenFile, auth: Credentials) returns (request: ConnectRequest)
    modifies file
    ensures file.contents == Token(auth)
    ensures request.token == file.contents
  {
    var token := Token(auth);
    file.contents := token;
    request := ConnectRequest(token);
  }
}
