/** `POST /api/test/validate-token`: a basic format check of a device token.
    A token is valid when its `length` is at least 140 and it matches
    `/^[A-Za-z0-9_-]+$/`; a separate "format" check reports whether it contains
    a space. */
module TokenValidation {
  import opened Wrappers
  import JsText

  const MinimumLength: nat := 140
  const AllowedCharacters: string := "A-Z, a-z, 0-9, _, -"

  predicate IsTokenChar(c: char) {
    || 'A' <= c <= 'Z'
    || 'a' <= c <= 'z'
    || '0' <= c <= '9'
    || c == '_'
    || c == '-'
  }

  /** Scans the string; true when every character is in the token alphabet. */
  function AllTokenChars(s: string): (b: bool)
    ensures b <==> forall i :: 0 <= i < |s| ==> IsTokenChar(s[i])
  {
    if |s| == 0 then true
    else IsTokenChar(s[0]) && AllTokenChars(s[1..])
  }

  /** `/^[A-Za-z0-9_-]+$/.test(s)`: one or more token characters and nothing else. */
  function MatchesTokenPattern(s: string): (b: bool)
    ensures b <==> |s| >= 1 && forall i :: 0 <= i < |s| ==> IsTokenChar(s[i])
    ensures b ==> ' ' !in s
  {
    |s| > 0 && AllTokenChars(s)
  }

  datatype TokenReport = TokenReport(
    token: string,
    isValid: bool,
    lengthValid: bool,
    length: nat,
    minimum: nat,
    charactersValid: bool,
    allowed: string,
    formatValid: bool)

  datatype ValidateReply = MissingToken | Validated(report: TokenReport)
  {
    function Status(): int {
      if MissingToken? then 400 else 200
    }
  }

  /** The handler. */
  function ValidateToken(token: Option<string>): (r: ValidateReply)
    ensures r.MissingToken? <==> !JsText.Truthy(token)
    ensures r.MissingToken? ==> r.Status() == 400
    ensures r.Validated? ==>
      var t := token.value;
      && r.report.token == t
      && r.report.length == JsText.Utf16Length(t)
      && r.report.minimum == MinimumLength
      && (r.report.lengthValid <==> JsText.Utf16Length(t) >= MinimumLength)
      && (r.report.charactersValid <==> forall i :: 0 <= i < |t| ==> IsTokenChar(t[i]))
      && (r.report.isValid <==> r.report.lengthValid && r.report.charactersValid)
      && (r.report.formatValid <==> ' ' !in t)
  {
    if !JsText.Truthy(token) then MissingToken
    else
      var t := token.value;
      var lengthValid := JsText.Utf16Length(t) >= MinimumLength;
      var charactersValid := MatchesTokenPattern(t);
      Validated(TokenReport(t, lengthValid && charactersValid, lengthValid, JsText.Utf16Length(t),
                            MinimumLength, charactersValid, AllowedCharacters, ' ' !in t))
  }

  /** A token is valid exactly when it has at least 140 characters, all from
      the token alphabet (such characters each count once in `length`). */
  lemma ValidTokenCharacterised(t: string)
    requires |t| > 0
    ensures ValidateToken(Some(t)).report.isValid
        <==> |t| >= MinimumLength && forall i :: 0 <= i < |t| ==> IsTokenChar(t[i])
  {
    if forall i :: 0 <= i < |t| ==> IsTokenChar(t[i]) {
      assert forall i :: 0 <= i < |t| ==> t[i] as int <= 0xFFFF by {
        forall i | 0 <= i < |t| ensures t[i] as int <= 0xFFFF {
          assert IsTokenChar(t[i]);
        }
      }
      JsText.Utf16LengthOfBmp(t);
    }
  }

  /** A valid token always passes the "no spaces" check. */
  lemma ValidTokenHasNoSpace(t: string)
    requires |t| > 0
    requires ValidateToken(Some(t)).report.isValid
    ensures ValidateToken(Some(t)).report.formatValid
  {
  }
}
