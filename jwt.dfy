/** The claims set carried by a JSON Web Token (RFC 7519), as the two systems read it.
    TaskFlow mints top-level `userId`, `role` and `name`; the WordPress hook reads a
    `data.user` envelope. Every claim is optional, so one type describes both shapes. */
module Jwt {
  import opened Wrappers
  import opened Records

  /** The `data.user` object the WordPress hook reads. */
  datatype WpUser = WpUser(id: Option<Id>, email: Option<string>, displayName: Option<string>,
                           role: Option<string>)

  /** The `data` object. */
  datatype WpData = WpData(user: Option<WpUser>)

  /** A decoded claims set; `iat`, `nbf` and `exp` are NumericDates (seconds, section 2 of RFC 7519). */
  datatype Payload = Payload(userId: Option<Id>, role: Option<string>, name: Option<string>,
                             iss: Option<string>, iat: Option<int>, nbf: Option<int>,
                             exp: Option<int>, data: Option<WpData>)

  /** The characters of a JWS compact serialisation (section 7.1 of RFC 7515): base64url
      segments separated by dots. */
  predicate CompactChar(c: char) {
    ('A' <= c <= 'Z') || ('a' <= c <= 'z') || ('0' <= c <= '9') || c == '-' || c == '_' || c == '.'
  }

  /** A token in compact serialisation. */
  predicate Compact(t: string) {
    forall i :: 0 <= i < |t| ==> CompactChar(t[i])
  }

  /** A compact token contains none of the characters that delimit headers and URLs. */
  lemma CompactHasNoDelimiters(t: string)
    requires Compact(t)
    ensures ' ' !in t && '&' !in t && '#' !in t && '?' !in t && '=' !in t && '%' !in t && '+' !in t
  {
  }
}
