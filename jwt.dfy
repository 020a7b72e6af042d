/** The token payload of server/src/utils/jwt.ts. Signing and verifying are
    left to the caller as an oracle; ids travel in the payload as decimal text. */
module Jwt {
  import opened Wrappers
  import Text

  datatype TokenPayload = TokenPayload(userId: string, email: string, role: string)

  /** `_id.toString()`. */
  function IdText(id: nat): (s: string)
    ensures s != [] && Text.AllDigits(s)
  {
    Text.NatToString(id)
  }

  /** The id a `userId` string names; `None` is a string `findById` cannot cast. */
  function ParseId(s: string): (r: Option<nat>)
    ensures r.Some? <==> s != [] && Text.AllDigits(s)
  {
    if s != [] && Text.AllDigits(s) then Some(Text.ParseDigits(s)) else None
  }

  /** The id written into a token reads back as the same id. */
  lemma {:induction false} ParseIdText(id: nat)
    ensures ParseId(IdText(id)) == Some(id)
  {
    Text.ParseNatToString(id);
  }
}
