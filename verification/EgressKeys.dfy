/** Egress addresses and the keys two instances must not share. */
module EgressKeys {
  /** Dotted decimal text has no separator in it; IPv6 text may, through its zone. */
  type V4Text = s: string | s != "" && '|' !in s witness "0"
  type V6Text = s: string | s != "" witness "0"

  datatype Addr = Invalid | V4(text4: V4Text) | V6(text6: V6Text)

  datatype Egress = Egress(v4: Addr, v6: Addr)

  const NO_EGRESS := Egress(Invalid, Invalid)

  const SEPARATOR: char := '|'

  type Keyer = Egress -> string

  predicate AnyValid(e: Egress) {
    e.v4 != Invalid || e.v6 != Invalid
  }

  /** An empty key from an egress that has a valid stack: exempt from uniqueness. */
  predicate WhitelistedEmptyKey(key: string, e: Egress) {
    key == "" && AnyValid(e)
  }

  function KeyByV4(e: Egress): string {
    if e.v4.V4? then e.v4.text4 else ""
  }

  function KeyByV6(e: Egress): string {
    if e.v6.V6? then e.v6.text6 else ""
  }

  function KeyByBoth(e: Egress): string {
    var a, b := KeyByV4(e), KeyByV6(e);
    if a == "" && b == "" then "" else a + [SEPARATOR] + b
  }

  /** An address of the policy's family has its text as key: keys are equal exactly if the addresses are. */
  lemma KeysNameAddresses(e: Egress, f: Egress)
    ensures KeyByV4(e) != "" <==> e.v4.V4?
    ensures KeyByV6(e) != "" <==> e.v6.V6?
    ensures e.v4.V4? && f.v4.V4? ==> (KeyByV4(e) == KeyByV4(f) <==> e.v4 == f.v4)
    ensures e.v6.V6? && f.v6.V6? ==> (KeyByV6(e) == KeyByV6(f) <==> e.v6 == f.v6)
  {
  }

  lemma {:induction false} SeparatorSplits(a: string, b: string, c: string, d: string)
    requires SEPARATOR !in a && SEPARATOR !in c
    requires a + [SEPARATOR] + b == c + [SEPARATOR] + d
    ensures a == c && b == d
  {
    var s := a + [SEPARATOR] + b;
    assert s[|a|] == SEPARATOR && s[|c|] == SEPARATOR;
    assert forall i :: 0 <= i < |a| ==> s[i] == a[i];
    assert forall i :: 0 <= i < |c| ==> s[i] == c[i];
    assert a == s[..|a|] && c == s[..|c|];
    assert b == s[|a| + 1..] && d == s[|c| + 1..];
  }

  /** The combined key is empty only when both stacks give none, and otherwise determines both. */
  lemma BothKeyDeterminesStacks(e: Egress, f: Egress)
    ensures KeyByBoth(e) == "" <==> KeyByV4(e) == "" && KeyByV6(e) == ""
    ensures KeyByBoth(e) == KeyByBoth(f) <==> KeyByV4(e) == KeyByV4(f) && KeyByV6(e) == KeyByV6(f)
  {
    if KeyByBoth(e) == KeyByBoth(f) != "" {
      SeparatorSplits(KeyByV4(e), KeyByV6(e), KeyByV4(f), KeyByV6(f));
    }
  }

  /** Which probes escape the uniqueness check, policy by policy. A failed probe never does. */
  lemma WhenWhitelisted(e: Egress)
    ensures WhitelistedEmptyKey(KeyByV4(e), e) <==> e.v4.V6? || (e.v4 == Invalid && e.v6 != Invalid)
    ensures WhitelistedEmptyKey(KeyByV6(e), e) <==> e.v6.V4? || (e.v6 == Invalid && e.v4 != Invalid)
    ensures WhitelistedEmptyKey(KeyByBoth(e), e) <==> !e.v4.V4? && !e.v6.V6? && e != NO_EGRESS
    ensures !WhitelistedEmptyKey(KeyByV4(NO_EGRESS), NO_EGRESS)
  {
    BothKeyDeterminesStacks(e, e);
  }
}
