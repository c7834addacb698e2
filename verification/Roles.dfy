/** Access levels, from weakest to strongest (internal/analysis/auth.go). */
module Roles {

  function Rank(role: string): nat {
    if role == "authenticated" then 1 else if role == "guest" then 2 else if role == "admin" then 3 else 0
  }

  /** `maxRole`. */
  function Stronger(a: string, b: string): string { if Rank(b) > Rank(a) then b else a }
}
