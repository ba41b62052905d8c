/** The metadata revision as a strong entity tag, and the If-Match check of
    section 13.1.1 of RFC 9110 as the service applies it: one exact tag. */
module Revisions {
  import opened Records

  datatype Check = Accepted | Required | Mismatched

  function Digit(n: nat): char
    requires n < 10
  {
    "0123456789"[n]
  }

  function Decimal(n: nat): string {
    if n < 10 then [Digit(n)] else Decimal(n / 10) + [Digit(n % 10)]
  }

  function Tag(revision: nat): string {
    "\"" + Decimal(revision) + "\""
  }

  function CheckRevision(revision: nat, header: Option<string>): Check {
    match header
    case None => Required
    case Some(tag) => if tag != Tag(revision) then Mismatched else Accepted
  }

  function DigitValue(c: char): nat {
    if '0' <= c <= '9' then c as int - '0' as int else 0
  }

  function Parsed(digits: string): nat {
    if digits == "" then 0
    else 10 * Parsed(digits[..|digits| - 1]) + DigitValue(digits[|digits| - 1])
  }

  lemma {:induction false} DecimalRoundTrip(n: nat)
    ensures Parsed(Decimal(n)) == n
  {
    if n < 10 {
      assert Decimal(n) == [Digit(n)];
      assert Parsed([]) == 0;
      assert [Digit(n)][..0] == [];
    } else {
      DecimalRoundTrip(n / 10);
      assert (Decimal(n / 10) + [Digit(n % 10)])[..|Decimal(n / 10)|] == Decimal(n / 10);
    }
  }

  /** A header is accepted for exactly one revision: the one it spells. */
  lemma AcceptedNamesOneRevision(revision: nat, header: Option<string>)
    ensures CheckRevision(revision, header) == Accepted <==> header == Some(Tag(revision))
    ensures CheckRevision(revision, header) == Required <==> header == None
    ensures forall other: nat ::
      CheckRevision(revision, header) == Accepted && CheckRevision(other, header) == Accepted ==>
        other == revision
  {
    forall other: nat |
      CheckRevision(revision, header) == Accepted && CheckRevision(other, header) == Accepted
      ensures other == revision
    {
      assert Tag(revision)[1..|Tag(revision)| - 1] == Decimal(revision);
      assert Tag(other)[1..|Tag(other)| - 1] == Decimal(other);
      DecimalRoundTrip(revision);
      DecimalRoundTrip(other);
    }
  }
}
