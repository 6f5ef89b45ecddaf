/** The labels of data channels: the server prints its own, and reads the index off the label of
    a channel that the client opened. */
module ChannelLabels {
  import opened Decimal

  const SERVER_PREFIX: string := "server-channel-"
  const CLIENT_PREFIX: string := "client-channel-"

  /** The room for a label: the prefix with its NUL, and eleven more. */
  const NAME_CAPACITY: nat := |SERVER_PREFIX| + 1 + 11

  /** The client's prefix and at least one digit. */
  predicate IsClientLabel(text: string) {
    && |text| > |CLIENT_PREFIX| && CLIENT_PREFIX <= text
    && forall i :: |CLIENT_PREFIX| <= i < |text| ==> IsDigit(text[i])
  }

  function Digits(text: string): string
    requires IsClientLabel(text)
  {
    text[|CLIENT_PREFIX|..]
  }

  /** The index is accumulated in a size_t, which wraps around. */
  method ParseChannelLabel(text: string) returns (valid: bool, index: nat)
    ensures valid <==> IsClientLabel(text)
    ensures valid ==>
              (forall c :: c in Digits(text) ==> IsDigit(c)) && index == Value(Digits(text)) % WORD
    ensures index < WORD
  {
    index := 0;
    if |text| <= |CLIENT_PREFIX| || text[..|CLIENT_PREFIX|] != CLIENT_PREFIX { return false, 0; }
    var i, start := |CLIENT_PREFIX|, |CLIENT_PREFIX|;
    while i < |text|
      invariant start <= i <= |text|
      invariant forall j :: start <= j < i ==> IsDigit(text[j])
      invariant forall c :: c in text[start..i] ==> IsDigit(c)
      invariant index == Value(text[start..i]) % WORD
    {
      var c := text[i];
      if c < '0' || c > '9' { return false, 0; }
      assert text[start..i + 1][..i - start] == text[start..i];
      WrapsOnce(Value(text[start..i]), (c - '0') as nat);
      index := (index * 10 + (c - '0') as nat) % WORD;
      i := i + 1;
    }
    assert text[start..i] == Digits(text);
    return true, index;
  }

  /** Wrapping around at every digit is wrapping around once. */
  lemma WrapsOnce(n: nat, d: nat)
    ensures (n % WORD * 10 + d) % WORD == (10 * n + d) % WORD
  {
    var q := n / WORD;
    assert n == q * WORD + n % WORD;
    assert 10 * n + d == 10 * q * WORD + (n % WORD * 10 + d);
    ModAdds(10 * q, n % WORD * 10 + d);
  }

  lemma ModAdds(k: nat, m: nat)
    ensures (k * WORD + m) % WORD == m % WORD
  {
    var q := m / WORD;
    assert k * WORD + m == (k + q) * WORD + m % WORD;
  }

  /** Parsing undoes printing exactly for the indices of a size_t. */
  lemma LabelRoundTrip(n: nat)
    ensures
      var text := CLIENT_PREFIX + Print(n);
      && IsClientLabel(text) && (forall c :: c in Digits(text) ==> IsDigit(c))
      && (Value(Digits(text)) % WORD == n <==> n < WORD)
  {
    PrintDigits(n);
    ValueOfPrint(n);
    assert Digits(CLIENT_PREFIX + Print(n)) == Print(n);
  }

  /** The label of a server's channel fits its buffer exactly below ten to the eleventh. */
  lemma ServerLabelFits(index: nat)
    ensures |SERVER_PREFIX + Print(index)| + 1 <= NAME_CAPACITY <==> index < 100_000_000_000
  {
    PrintLength(index, 11);
    assert Power(5) == 100_000;
    assert Power(11) == 100_000_000_000;
  }
}
