/** The text kept under the `'user'` storage key: `JSON.stringify` of the
    four identity fields, in the order the client writes them, and the
    reading of that text back into a `User` on startup. */
module StoredUser {
  import opened Types
  import opened Text

  /** A string's characters inside a JSON string literal: a quote and a
      backslash are preceded by a backslash. */
  function Escape(s: string): (r: string)
    ensures |r| >= |s|
    decreases |s|
  {
    if s == [] then []
    else (if s[0] == '"' || s[0] == '\\' then ['\\', s[0]] else [s[0]]) + Escape(s[1..])
  }

  /** Reads the body of a JSON string literal up to its closing quote,
      returning the characters it stands for and the text after the quote. */
  function ParseString(s: string): Option<(string, string)>
    decreases |s|
  {
    if s == [] then None
    else if s[0] == '"' then Some(([], s[1..]))
    else if s[0] == '\\' then
      if |s| >= 2 && (s[1] == '"' || s[1] == '\\') then
        match ParseString(s[2..])
        case Some((v, rest)) => Some(([s[1]] + v, rest))
        case None => None
      else None
    else
      match ParseString(s[1..])
      case Some((v, rest)) => Some(([s[0]] + v, rest))
      case None => None
  }

  /** One escaped quote or backslash, then the rest of a literal. */
  lemma ParseEscapedChar(c: char, tail: string, v: string, rest: string)
    requires c == '"' || c == '\\'
    requires ParseString(tail) == Some((v, rest))
    ensures ParseString(['\\', c] + tail) == Some(([c] + v, rest))
  {
    var w := ['\\', c] + tail;
    assert w[0] == '\\' && w[1] == c && w[2..] == tail;
  }

  /** One ordinary character, then the rest of a literal. */
  lemma ParsePlainChar(c: char, tail: string, v: string, rest: string)
    requires c != '"' && c != '\\'
    requires ParseString(tail) == Some((v, rest))
    ensures ParseString([c] + tail) == Some(([c] + v, rest))
  {
    var w := [c] + tail;
    assert w[0] == c && w[1..] == tail;
  }

  /** An escaped string followed by a closing quote reads back as the
      string, leaving the rest untouched. */
  lemma {:induction false} ParseEscaped(s: string, rest: string)
    ensures ParseString(Escape(s) + "\"" + rest) == Some((s, rest))
    decreases |s|
  {
    if s == [] {
      assert Escape(s) + "\"" + rest == "\"" + rest;
    } else {
      ParseEscaped(s[1..], rest);
      var tail := Escape(s[1..]) + "\"" + rest;
      assert [s[0]] + s[1..] == s;
      if s[0] == '"' || s[0] == '\\' {
        assert Escape(s) + "\"" + rest == ['\\', s[0]] + tail;
        ParseEscapedChar(s[0], tail, s[1..], rest);
      } else {
        assert Escape(s) + "\"" + rest == [s[0]] + tail;
        ParsePlainChar(s[0], tail, s[1..], rest);
      }
    }
  }

  const UserIdKey := "{\"userId\":"
  const FirstNameKey := ",\"firstName\":\""
  const LastNameKey := "\",\"lastName\":\""
  const EmailKey := "\",\"email\":\""
  const Closing := "\"}"

  /** A string field: its key (up to the opening quote), the escaped value,
      then what follows, which starts with the closing quote. */
  function Field(key: string, v: string, next: string): string {
    key + Escape(v) + next
  }

  /** `JSON.stringify({ userId, firstName, lastName, email })`. */
  function UserJson(u: User): string {
    UserIdKey + IntToString(u.userId)
      + Field(FirstNameKey, u.firstName,
          Field(LastNameKey, u.lastName,
            Field(EmailKey, u.email, Closing)))
  }

  /** Reads `key` at the front of `s` and returns what follows it. */
  function After(s: string, key: string): Option<string> {
    if StartsWith(s, key) then Some(s[|key|..]) else None
  }

  /** Reads a string field introduced by `key` (which ends with the opening
      quote) and returns the value and the text from its closing quote on. */
  function StringField(s: string, key: string): Option<(string, string)> {
    match After(s, key)
    case None => None
    case Some(body) =>
      match ParseString(body)
      case None => None
      case Some((v, rest)) => Some((v, "\"" + rest))
  }

  /** `JSON.parse` of a stored `'user'` entry, for the text the client
      itself writes; anything else is taken as unparsable. */
  function ParseUser(s: string): Option<User> {
    match After(s, UserIdKey)
    case None => None
    case Some(s1) =>
      match ParseInt(s1)
      case None => None
      case Some((id, s2)) => ParseNames(id, s2)
  }

  /** The three string fields after the id, then the closing brace. */
  function ParseNames(id: int, s: string): Option<User> {
    match StringField(s, FirstNameKey)
    case None => None
    case Some((first, s1)) =>
      match StringField(s1, LastNameKey)
      case None => None
      case Some((last, s2)) =>
        match StringField(s2, EmailKey)
        case None => None
        case Some((email, s3)) =>
          if s3 == Closing then Some(User(id, first, last, email)) else None
  }

  lemma AfterKey(key: string, rest: string)
    ensures After(key + rest, key) == Some(rest)
  {
    assert (key + rest)[..|key|] == key;
    assert (key + rest)[|key|..] == rest;
  }

  /** A field written by `UserJson` reads back as its value, leaving the
      text from its closing quote on. */
  lemma StringFieldOfEscaped(key: string, v: string, next: string)
    requires |key| > 0 && key[|key| - 1] == '"'
    requires |next| > 0 && next[0] == '"'
    ensures StringField(Field(key, v, next), key) == Some((v, next))
  {
    var rest := next[1..];
    assert next == "\"" + rest;
    assert key + Escape(v) + next == key + (Escape(v) + "\"" + rest);
    AfterKey(key, Escape(v) + "\"" + rest);
    ParseEscaped(v, rest);
  }

  /** The name fields `UserJson` writes read back as the user's names. */
  lemma ParseNamesOfFields(u: User)
    ensures ParseNames(u.userId, Field(FirstNameKey, u.firstName,
                                   Field(LastNameKey, u.lastName,
                                     Field(EmailKey, u.email, Closing)))) == Some(u)
  {
    var t2 := Field(EmailKey, u.email, Closing);
    var t1 := Field(LastNameKey, u.lastName, t2);
    var t0 := Field(FirstNameKey, u.firstName, t1);
    assert t1[0] == '"' && t2[0] == '"';
    StringFieldOfEscaped(FirstNameKey, u.firstName, t1);
    StringFieldOfEscaped(LastNameKey, u.lastName, t2);
    StringFieldOfEscaped(EmailKey, u.email, Closing);
  }

  /** What the client stores under `'user'` reads back as the same user. */
  lemma ParseUserJson(u: User)
    ensures ParseUser(UserJson(u)) == Some(u)
  {
    var t0 := Field(FirstNameKey, u.firstName,
                Field(LastNameKey, u.lastName,
                  Field(EmailKey, u.email, Closing)));
    var id := IntToString(u.userId);
    assert UserJson(u) == UserIdKey + (id + t0);
    AfterKey(UserIdKey, id + t0);
    assert t0[0] == ',';
    ParseIntToString(u.userId, t0);
    ParseNamesOfFields(u);
  }
}
