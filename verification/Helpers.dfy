/** Small argument helpers of runtime_helpers.go.  A time of 0 is Go's zero time. */
module Helpers {
  import opened Wrappers
  import opened Text

  /** clampLimit. */
  function ClampLimit(limit: int, fallback: nat, maximum: nat): nat {
    if limit <= 0 then fallback else if limit > maximum then maximum else limit
  }

  /** statusOrDefault. */
  function StatusOrDefault(value: string, fallback: string): string {
    if Blank(value) then fallback else TrimSpace(value)
  }

  /** nullString. */
  function NullString(s: string): Option<string> {
    if TrimSpace(s) == "" then None else Some(TrimSpace(s))
  }

  /** nullTimeValue. */
  function NullTime(t: Option<nat>): Option<nat> {
    if t == Some(0) then None else t
  }

  /** A time given by the caller, or the fallback when it is absent or zero. */
  function TimeOr(t: Option<nat>, fallback: nat): nat {
    if t.None? || t.value == 0 then fallback else t.value
  }
}
