/**
 * The bitStringMatch equality matching rule: validation and normalisation of
 * values of the LDAP Bit String syntax (section 3.3.2 of RFC 4517; the
 * matching rule is section 4.2.1 of the same RFC).
 *
 * A value is upper-cased and must then read: a quote, any run of `0` and
 * `1`, a quote, `B`.  What happens to a value that does not is decided by the
 * server's syntax enforcement policy, passed here as a parameter.
 */
module BitStrings {
  import opened Wrappers
  import opened ServerTypes

  /** The common name of the matching rule. */
  const Name: string := "bitStringMatch"
  /** The OID of the matching rule. */
  const Oid: string := "2.5.13.16"
  /** The OID of the Bit String syntax the rule applies to. */
  const SyntaxOid: string := "1.3.6.1.4.1.1466.115.121.1.6"

  /** All names of the matching rule: exactly its common name. */
  function AllNames(): (names: set<string>)
    ensures Name in names
    ensures forall n :: n in names ==> n == Name
  {
    {Name}
  }

  /** How the server treats a value that violates its attribute syntax. */
  datatype SyntaxEnforcementPolicy = Reject | Warn | Accept

  // ---------------------------------------------------------------------
  // Upper-casing (ASCII letters only)
  // ---------------------------------------------------------------------

  function ToUpper(c: char): (upper: char)
  {
    if 'a' <= c <= 'z' then (c as int - 32) as char else c
  }

  predicate IsLower(c: char)
  {
    'a' <= c <= 'z'
  }

  /** The string with every lower-case ASCII letter replaced by its capital. */
  function UpperCase(s: string): (u: string)
    ensures |u| == |s|
    ensures forall i :: 0 <= i < |s| ==> u[i] == ToUpper(s[i])
    ensures forall i :: 0 <= i < |s| ==> !IsLower(u[i])
  {
    seq(|s|, i requires 0 <= i < |s| => ToUpper(s[i]))
  }

  /** Upper-casing is idempotent. */
  lemma UpperCaseIdempotent(s: string)
    ensures UpperCase(UpperCase(s)) == UpperCase(s)
  {
  }

  /** A string without lower-case letters is its own upper-cased form. */
  lemma UpperCaseOfUpper(s: string)
    requires forall i :: 0 <= i < |s| ==> !IsLower(s[i])
    ensures UpperCase(s) == s
  {
  }

  // ---------------------------------------------------------------------
  // The syntax, stated independently of the scan
  // ---------------------------------------------------------------------

  predicate IsBit(c: char)
  {
    c == '0' || c == '1'
  }

  predicate AllBits(bits: string)
  {
    forall i :: 0 <= i < |bits| ==> IsBit(bits[i])
  }

  /** The Bit String written for a run of binary digits. */
  function BitStringOf(bits: string): (v: string)
    ensures |v| == |bits| + 3
  {
    "'" + bits + "'B"
  }

  /** An upper-cased value framed as quote, ..., quote, `B`. */
  predicate Quoted(v: string)
    requires |v| >= 3
  {
    v[0] == '\'' && v[|v| - 2] == '\'' && v[|v| - 1] == 'B'
  }

  /** An upper-cased value in the Bit String syntax. */
  predicate IsBitString(v: string)
  {
    |v| >= 3 && Quoted(v) && AllBits(v[1..|v| - 2])
  }

  /** The syntax predicate agrees with the grammar of the RFC. */
  lemma IsBitStringIsGrammar(v: string)
    ensures IsBitString(v) <==> exists bits :: AllBits(bits) && v == BitStringOf(bits)
  {
    if IsBitString(v) {
      var bits := v[1..|v| - 2];
      assert v == BitStringOf(bits);
    }
    if exists bits :: AllBits(bits) && v == BitStringOf(bits) {
      var bits :| AllBits(bits) && v == BitStringOf(bits);
      assert v[1..|v| - 2] == bits;
    }
  }

  // ---------------------------------------------------------------------
  // normalizeValue and reportInvalidSyntax
  // ---------------------------------------------------------------------

  /**
   * The scan over positions `lo` up to `hi` (exclusive): the first one that
   * does not hold a binary digit, if any.
   */
  function FirstNonBit(v: string, lo: nat, hi: nat): (r: Option<nat>)
    requires lo <= hi <= |v|
    ensures r.None? ==> forall k :: lo <= k < hi ==> IsBit(v[k])
    ensures r.Some? ==> lo <= r.value < hi && !IsBit(v[r.value])
    ensures r.Some? ==> (forall k :: lo <= k < r.value ==> IsBit(v[k]))
    decreases hi - lo
  {
    if lo == hi then None
    else if !IsBit(v[lo]) then Some(lo)
    else FirstNonBit(v, lo + 1, hi)
  }

  /**
   * Handling of a value that violates the syntax: rejected with
   * INVALID_ATTRIBUTE_SYNTAX under the Reject policy, passed through
   * (upper-cased) under any other policy.
   */
  function ReportInvalidSyntax(valueString: string, message: Message, policy: SyntaxEnforcementPolicy)
    : (r: Result<string, DirectoryException>)
    ensures r.Err? <==> policy == Reject
    ensures r.Err? ==> r.error.resultCode == InvalidAttributeSyntax && r.error.message == message
    ensures r.Ok? ==> r.value == valueString
  {
    match policy
    case Reject => Err(DirectoryException(InvalidAttributeSyntax, message))
    case Warn => Ok(valueString)   // the server also logs the message
    case Accept => Ok(valueString)
  }

  /**
   * The normalised form of a value: its upper-cased form, once it has been
   * checked against the syntax.  The checks run in order (too short, not
   * quoted, a character that is not a bit) and the first failure is reported.
   */
  function NormalizeValue(value: string, policy: SyntaxEnforcementPolicy)
    : (r: Result<string, DirectoryException>)
    ensures r.Ok? ==> r.value == UpperCase(value)
    ensures r.Err? <==> policy == Reject && !IsBitString(UpperCase(value))
    ensures r.Err? ==> r.error.resultCode == InvalidAttributeSyntax
  {
    var valueString := UpperCase(value);
    var length := |valueString|;
    if length < 3 then
      ReportInvalidSyntax(valueString, BitStringTooShort(value), policy)
    else if valueString[0] != '\'' || valueString[length - 2] != '\'' || valueString[length - 1] != 'B' then
      ReportInvalidSyntax(valueString, BitStringNotQuoted(value), policy)
    else
      match FirstNonBit(valueString, 1, length - 2)
      case Some(i) => ReportInvalidSyntax(valueString, BitStringInvalidBit(value, valueString[i]), policy)
      case None => Ok(valueString)
  }

  // Under the Reject policy the message names the first check that fails:
  // too short, then not quoted, then the first character that is not a bit.

  lemma TooShortReported(value: string)
    requires |UpperCase(value)| < 3
    ensures NormalizeValue(value, Reject)
            == Err(DirectoryException(InvalidAttributeSyntax, BitStringTooShort(value)))
  {
  }

  lemma NotQuotedReported(value: string)
    requires |UpperCase(value)| >= 3 && !Quoted(UpperCase(value))
    ensures NormalizeValue(value, Reject)
            == Err(DirectoryException(InvalidAttributeSyntax, BitStringNotQuoted(value)))
  {
  }

  lemma FirstInvalidBitReported(value: string, i: nat)
    requires var v := UpperCase(value);
      && 1 <= i < |v| - 2 && Quoted(v) && !IsBit(v[i])
      && forall k :: 1 <= k < i ==> IsBit(v[k])
    ensures NormalizeValue(value, Reject)
            == Err(DirectoryException(InvalidAttributeSyntax, BitStringInvalidBit(value, UpperCase(value)[i])))
  {
  }

  /** Under any policy but Reject, normalisation never fails. */
  lemma TolerantPolicyPassesThrough(value: string, policy: SyntaxEnforcementPolicy)
    requires policy != Reject
    ensures NormalizeValue(value, policy) == Ok(UpperCase(value))
  {
  }

  /** Every Bit String of the RFC grammar is accepted and is already normal. */
  lemma {:induction false} GrammarValueIsNormal(bits: string, policy: SyntaxEnforcementPolicy)
    requires AllBits(bits)
    ensures NormalizeValue(BitStringOf(bits), policy) == Ok(BitStringOf(bits))
  {
    var v := BitStringOf(bits);
    assert forall i :: 0 <= i < |v| ==> !IsLower(v[i]) by {
      forall i | 0 <= i < |v| ensures !IsLower(v[i]) {
        if 1 <= i < |v| - 2 {
          assert v[i] == bits[i - 1];
        }
      }
    }
    UpperCaseOfUpper(v);
    IsBitStringIsGrammar(v);
  }

  /** A value accepted under Reject normalises to the Bit String of its digits. */
  lemma AcceptedValueIsGrammar(value: string)
    requires NormalizeValue(value, Reject).Ok?
    ensures var v := NormalizeValue(value, Reject).value;
      |v| >= 3 && AllBits(v[1..|v| - 2]) && v == BitStringOf(v[1..|v| - 2])
  {
    var v := UpperCase(value);
    assert v == BitStringOf(v[1..|v| - 2]);
  }

  /** Normalising a normalised value changes nothing: normalisation is idempotent. */
  lemma NormalizeIdempotent(value: string, policy: SyntaxEnforcementPolicy)
    requires NormalizeValue(value, policy).Ok?
    ensures NormalizeValue(NormalizeValue(value, policy).value, policy) == NormalizeValue(value, policy)
  {
    UpperCaseIdempotent(value);
  }

  /**
   * Examples: a trailing lower-case `b` is accepted, since the check runs
   * after upper-casing; the empty Bit String is valid, since the scan between
   * the quotes has nothing to read; a lower-case letter between the quotes
   * is reported upper-cased.
   */
  lemma ExampleValues()
    ensures NormalizeValue("'0101'b", Reject) == Ok("'0101'B")
    ensures NormalizeValue("''B", Reject) == Ok("''B")
    ensures NormalizeValue("'0a'B", Reject)
            == Err(DirectoryException(InvalidAttributeSyntax, BitStringInvalidBit("'0a'B", 'A')))
    ensures NormalizeValue("'01'", Reject)
            == Err(DirectoryException(InvalidAttributeSyntax, BitStringNotQuoted("'01'")))
    ensures NormalizeValue("1B", Warn) == Ok("1B")
  {
    assert UpperCase("'0101'b") == "'0101'B";
    assert UpperCase("''B") == "''B";
    assert UpperCase("'0a'B") == "'0A'B";
    assert UpperCase("'01'") == "'01'";
    assert UpperCase("1B") == "1B";
  }
}
