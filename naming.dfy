/**
 * Decimal rendering of indices and the index-suffixed names that tie the
 * entry form to the submit handler: the form writes `client_block_{i}`,
 * `hours_input_{i}`, ... and the handler looks exactly these names up.
 */
module Naming {

  function DigitChar(d: nat): (c: char)
    requires d < 10
    ensures '0' <= c <= '9'
  {
    ['0', '1', '2', '3', '4', '5', '6', '7', '8', '9'][d]
  }

  /** `str(n)` for a non-negative integer: its decimal digits, most significant first. */
  function NatToString(n: nat): (s: string)
    ensures 1 <= |s|
    ensures n < 10 <==> |s| == 1
    ensures forall k :: 0 <= k < |s| ==> '0' <= s[k] <= '9'
  {
    if n < 10 then [DigitChar(n)] else NatToString(n / 10) + [DigitChar(n % 10)]
  }

  lemma DigitCharInjective(a: nat, b: nat)
    requires a < 10 && b < 10 && DigitChar(a) == DigitChar(b)
    ensures a == b
  {
    var digits := ['0', '1', '2', '3', '4', '5', '6', '7', '8', '9'];
    assert digits[a] == DigitChar(a) && digits[b] == DigitChar(b);
  }

  /** Distinct numbers are rendered as distinct strings. */
  lemma {:induction false} NatToStringInjective(a: nat, b: nat)
    requires NatToString(a) == NatToString(b)
    ensures a == b
  {
    var s := NatToString(a);
    if a < 10 {
      DigitCharInjective(a, b);
    } else {
      var sa, sb := NatToString(a / 10), NatToString(b / 10);
      assert s == sa + [DigitChar(a % 10)] == sb + [DigitChar(b % 10)];
      assert sa == s[..|s| - 1] == sb;
      NatToStringInjective(a / 10, b / 10);
      DigitCharInjective(a % 10, b % 10);
    }
  }

  /** Putting the same prefix in front keeps distinct renderings distinct. */
  lemma PrefixedInjective(prefix: string, a: nat, b: nat)
    requires prefix + NatToString(a) == prefix + NatToString(b)
    ensures a == b
  {
    var x := prefix + NatToString(a);
    assert NatToString(a) == x[|prefix|..];
    assert NatToString(b) == x[|prefix|..];
    NatToStringInjective(a, b);
  }

  function ClientBlockId(i: nat): string { "client_block_" + NatToString(i) }
  function ClientInputId(i: nat): string { "client_input_" + NatToString(i) }
  function HoursBlockId(i: nat): string { "hours_block_" + NatToString(i) }
  function HoursInputId(i: nat): string { "hours_input_" + NatToString(i) }
  function ProofBlockId(i: nat): string { "proof_block_" + NatToString(i) }
  function ProofInputId(i: nat): string { "proof_input_" + NatToString(i) }
  function DescriptionBlockId(i: nat): string { "description_block_" + NatToString(i) }
  function DescriptionInputId(i: nat): string { "description_input_" + NatToString(i) }

  /** Each group's block ids name exactly one group and one field: equal ids
      come from the same index and the same field. */
  lemma {:induction false} BlockIdsDistinct(i: nat, j: nat)
    ensures ClientBlockId(i) == ClientBlockId(j) ==> i == j
    ensures HoursBlockId(i) == HoursBlockId(j) ==> i == j
    ensures ProofBlockId(i) == ProofBlockId(j) ==> i == j
    ensures ClientBlockId(i) != HoursBlockId(j)
    ensures ClientBlockId(i) != ProofBlockId(j)
    ensures HoursBlockId(i) != ProofBlockId(j)
  {
    if ClientBlockId(i) == ClientBlockId(j) { PrefixedInjective("client_block_", i, j); }
    if HoursBlockId(i) == HoursBlockId(j) { PrefixedInjective("hours_block_", i, j); }
    if ProofBlockId(i) == ProofBlockId(j) { PrefixedInjective("proof_block_", i, j); }
    assert ClientBlockId(i)[0] == 'c' && HoursBlockId(j)[0] == 'h' && ProofBlockId(j)[0] == 'p';
    assert HoursBlockId(i)[0] == 'h' && ClientBlockId(j)[0] == 'c';
  }

  /** The keys `client_block_0 .. client_block_{n-1}` of a map number n. */
  lemma {:induction false} ClientKeysBound<V>(fields: map<string, V>, n: nat)
    requires forall j :: 0 <= j < n ==> ClientBlockId(j) in fields
    ensures n <= |fields.Keys|
  {
    var ids := set j | 0 <= j < n :: ClientBlockId(j);
    ClientKeysCount(n);
    SubsetCardinality(ids, fields.Keys);
  }

  lemma {:induction false} SubsetCardinality<T>(a: set<T>, b: set<T>)
    requires a <= b
    ensures |a| <= |b|
  {
    if a != {} {
      var x :| x in a;
      SubsetCardinality(a - {x}, b - {x});
    }
  }

  lemma {:induction false} ClientKeysCount(n: nat)
    ensures |set j | 0 <= j < n :: ClientBlockId(j)| == n
  {
    if n > 0 {
      var prev := set j | 0 <= j < n - 1 :: ClientBlockId(j);
      var all := set j | 0 <= j < n :: ClientBlockId(j);
      assert all == prev + {ClientBlockId(n - 1)};
      if ClientBlockId(n - 1) in prev {
        var j :| 0 <= j < n - 1 && ClientBlockId(j) == ClientBlockId(n - 1);
        BlockIdsDistinct(j, n - 1);
      }
      ClientKeysCount(n - 1);
    }
  }
}
