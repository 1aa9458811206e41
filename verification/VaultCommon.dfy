/** Tenants, identifiers and whole seconds, shared by the parts of the pooled model key vault. */
module VaultCommon {
  import opened Text

  const MAX_SAFE_INTEGER: int := 9007199254740991

  datatype Tenant = Tenant(organizationId: string, userId: string, assistantId: string)

  /** Whole seconds of a millisecond timestamp. */
  function Seconds(ms: int): int { ms / 1000 }

  /** JavaScript's `length`: code units, two for a supplementary character. */
  function Utf16Length(s: string): nat {
    if s == "" then 0 else (if s[0] as int >= 0x10000 then 2 else 1) + Utf16Length(s[1..])
  }

  /** What `assertOpaqueId` lets through. */
  predicate OpaqueId(s: string) {
    && 1 <= Utf16Length(s) <= 256 && Trim(s) == s
    && forall i :: 0 <= i < |s| ==> s[i] >= ' ' && s[i] != '\U{7f}'
  }

  /** An identifier has 1 to 256 code units, no space at either end and no control character. */
  lemma OpaqueIdExactly(s: string)
    ensures OpaqueId(s) <==>
            && s != "" && Utf16Length(s) <= 256
            && !IsSpace(s[0]) && !IsSpace(s[|s| - 1])
            && forall i :: 0 <= i < |s| ==> 0x20 <= s[i] as int && s[i] as int != 0x7f
  {
    TrimmedExactly(s);
    LengthAtLeast(s);
  }

  /** Between one and two code units a character. */
  lemma {:induction false} LengthAtLeast(s: string)
    ensures |s| <= Utf16Length(s) <= 2 * |s|
  {
    if s != "" { LengthAtLeast(s[1..]); }
  }

  predicate SafeInteger(n: int) { -MAX_SAFE_INTEGER <= n <= MAX_SAFE_INTEGER }
}
