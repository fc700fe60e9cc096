/** The "Basic" HTTP authentication scheme of RFC 7617: the credentials are
    the user-id and the password joined by a colon, encoded as UTF-8 and then
    as base64 (section 2 of RFC 7617). */
module BasicAuth {

  import opened Wrappers
  import Utf8
  import Base64

  const Scheme: string := "Basic "

  /** The `authorization` header value for a user-id and a password. */
  function Credentials(user: string, password: string): (r: string)
    ensures |r| >= |Scheme| && r[..|Scheme|] == Scheme
    ensures forall k :: |Scheme| <= k < |r| ==> Base64.InAlphabet(r[k]) || r[k] == Base64.Pad
  {
    var token := Base64.Encode(Utf8.Encode(user + ":" + password));
    Base64.EncodeCharacters(Utf8.Encode(user + ":" + password));
    assert forall k :: |Scheme| <= k < |Scheme + token| ==> (Scheme + token)[k] == token[k - |Scheme|];
    Scheme + token
  }

  /** Splits at the first colon, as a receiver of the scheme does; None when
      there is no colon. */
  function SplitAtColon(s: string): (r: Option<(string, string)>)
    ensures r.Some? ==> r.value.0 + ":" + r.value.1 == s && ':' !in r.value.0
    ensures r.None? <==> ':' !in s
  {
    if s == [] then None
    else if s[0] == ':' then Some(([], s[1..]))
    else match SplitAtColon(s[1..])
      case None => None
      case Some((user, password)) => Some(([s[0]] + user, password))
  }

  /** What a server reads back from an `authorization` header value: the
      user-id and the password, or None when the value is not of the Basic
      scheme or does not decode. */
  function Parse(header: string): Option<(string, string)>
  {
    if |header| < |Scheme| || header[..|Scheme|] != Scheme then None
    else match Base64.Decode(header[|Scheme|..])
      case None => None
      case Some(octets) =>
        match Utf8.Decode(octets)
        case None => None
        case Some(userPass) => SplitAtColon(userPass)
  }

  lemma {:induction false} SplitJoined(user: string, password: string)
    requires ':' !in user
    ensures SplitAtColon(user + ":" + password) == Some((user, password))
  {
    var s := user + ":" + password;
    if user != [] {
      assert s[1..] == user[1..] + ":" + password;
      SplitJoined(user[1..], password);
      assert [user[0]] + user[1..] == user;
    } else {
      assert s[1..] == password;
    }
  }

  /** A server recovers exactly the user-id and password the header was built
      from, provided the user-id holds no colon (section 2 of RFC 7617 rules
      such user-ids out). */
  lemma RoundTrip(user: string, password: string)
    requires ':' !in user
    ensures Parse(Credentials(user, password)) == Some((user, password))
  {
    var userPass := user + ":" + password;
    var header := Credentials(user, password);
    assert header[|Scheme|..] == Base64.Encode(Utf8.Encode(userPass));
    Base64.RoundTrip(Utf8.Encode(userPass));
    Utf8.RoundTrip(userPass);
    SplitJoined(user, password);
  }

  /** With a colon in the user-id the header is ambiguous: a server splits at
      the first colon, so it never reads back that user-id and password. */
  lemma ColonInUserIdIsMisread(user: string, password: string)
    requires ':' in user
    ensures Parse(Credentials(user, password)) != Some((user, password))
  {
    var userPass := user + ":" + password;
    var header := Credentials(user, password);
    assert header[|Scheme|..] == Base64.Encode(Utf8.Encode(userPass));
    Base64.RoundTrip(Utf8.Encode(userPass));
    Utf8.RoundTrip(userPass);
  }

  /** For instance `a:b` with password `c` is read as `a` with `b:c`. */
  lemma ColonInUserIdExample()
    ensures Parse(Credentials("a:b", "c")) == Some(("a", "b:c"))
  {
    RoundTrip("a", "b:c");
    assert "a:b" + ":" + "c" == "a" + ":" + "b:c";
  }
}
