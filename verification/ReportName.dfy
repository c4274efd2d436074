/** The name of the report file: the director tries one name after the other until none of that name opens. */
module ReportName {
  import opened Counting

  const CSV_FILE_PATH := "./tmp/"

  function Digit(d: nat): char
    requires d < 10
  {
    "0123456789"[d]
  }

  /** The %d format, for numbers that are not negative. */
  function Decimal(n: nat): string {
    if n < 10 then [Digit(n)] else Decimal(n / 10) + [Digit(n % 10)]
  }

  function ValueOf(c: char): nat {
    if '0' <= c <= '9' then c as int - '0' as int else 0
  }

  /** The number a decimal string denotes. */
  function NumberIn(s: string): nat {
    if |s| == 0 then 0 else 10 * NumberIn(s[..|s| - 1]) + ValueOf(s[|s| - 1])
  }

  /** Printing and reading a number gives it back, so different numbers print differently. */
  lemma {:induction false} DecimalReadsBack(n: nat)
    ensures NumberIn(Decimal(n)) == n
  {
    var d := n % 10;
    assert ValueOf(Digit(d)) == d;
    if n < 10 {
      assert NumberIn([]) == 0 && [Digit(n)][..0] == [];
    } else {
      DecimalReadsBack(n / 10);
      assert Decimal(n)[..|Decimal(n)| - 1] == Decimal(n / 10);
    }
  }

  function FileName(counter: nat): string {
    CSV_FILE_PATH + (if counter == 0 then "final_stats.csv" else "final_stats_" + Decimal(counter) + ".csv")
  }

  /** Every counter value gives a name of its own. */
  lemma NamesDiffer(i: nat, j: nat)
    requires FileName(i) == FileName(j)
    ensures i == j
  {
    var n := |CSV_FILE_PATH|;
    assert FileName(i)[n + 11] == (if i == 0 then '.' else '_');
    assert FileName(j)[n + 11] == (if j == 0 then '.' else '_');
    if i != 0 && j != 0 {
      Middle(i);
      Middle(j);
      DecimalReadsBack(i);
      DecimalReadsBack(j);
    }
  }

  lemma Middle(i: nat)
    requires i > 0
    ensures |FileName(i)| >= 22 && FileName(i)[18..|FileName(i)| - 4] == Decimal(i)
  {
    var head := CSV_FILE_PATH + "final_stats_";
    assert FileName(i) == head + Decimal(i) + ".csv";
    assert |head| == 18;
  }

  /** The first k names. */
  ghost function FirstNames(k: nat): set<string> {
    set i: nat | i < k :: FileName(i)
  }

  lemma NextName(k: nat)
    ensures FirstNames(k + 1) == FirstNames(k) + {FileName(k)} && FileName(k) !in FirstNames(k)
  {
    forall i: nat | i < k ensures FileName(i) != FileName(k) {
      if FileName(i) == FileName(k) {
        NamesDiffer(i, k);
      }
    }
  }

  lemma {:induction false} FirstNamesSize(k: nat)
    ensures |FirstNames(k)| == k
  {
    if k == 0 {
      assert FirstNames(0) == {};
    } else {
      FirstNamesSize(k - 1);
      NextName(k - 1);
    }
  }

  /**
   The search ends because there are more names than files. It settles on the least
   counter whose name cannot be opened, so no file that could be read is written over.
   */
  method FreeName(readable: set<string>) returns (filename: string, counter: nat)
    ensures filename == FileName(counter) && filename !in readable
    ensures forall k: nat | k < counter :: FileName(k) in readable
    ensures counter <= |readable|
  {
    counter := 0;
    filename := FileName(0);
    while filename in readable
      invariant filename == FileName(counter)
      invariant forall k: nat | k < counter :: FileName(k) in readable
      invariant counter <= |readable|
      decreases |readable| - counter
    {
      FirstNamesSize(counter + 1);
      SubsetSize(FirstNames(counter + 1), readable);
      counter := counter + 1;
      filename := FileName(counter);
    }
  }
}
