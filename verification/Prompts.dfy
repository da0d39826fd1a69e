/** The retrieved chunks that fit the prompt: they are the context blocks and the citations alike. */
module Prompts {
  import opened Text

  datatype Retrieved = Retrieved(
    chunkId: string, documentId: string, filename: string, text: string, score: real, headings: seq<string>)

  function Decimal(n: nat): string {
    if n < 10 then [['0', '1', '2', '3', '4', '5', '6', '7', '8', '9'][n]]
    else Decimal(n / 10) + Decimal(n % 10)
  }

  function RenderBlock(chunk: Retrieved, rank: nat): string {
    var path := Join(" > ", chunk.headings);
    var title := if path == "" then chunk.filename else chunk.filename + "\U{FF5C}" + path;
    "[" + Decimal(rank) + "] " + title + "\n" + chunk.text
  }

  /** The number that a text of digits stands for. */
  function NumberOf(digits: string): nat {
    if digits == "" then 0
    else
      var d := digits[|digits| - 1];
      NumberOf(digits[..|digits| - 1]) * 10 + if '0' <= d <= '9' then d as nat - '0' as nat else 0
  }

  lemma {:induction false} DecimalIsNumber(n: nat)
    ensures NumberOf(Decimal(n)) == n && Decimal(n) != ""
    ensures forall i | 0 <= i < |Decimal(n)| :: '0' <= Decimal(n)[i] <= '9'
  {
    if n >= 10 {
      DecimalIsNumber(n / 10);
      DecimalIsNumber(n % 10);
      assert Decimal(n)[..|Decimal(n)| - 1] == Decimal(n / 10);
      assert Decimal(n)[|Decimal(n)| - 1] == Decimal(n % 10)[0];
      DigitIs(n % 10);
    } else {
      DigitIs(n);
    }
  }

  lemma {:induction false} DigitIs(n: nat)
    requires n < 10
    ensures |Decimal(n)| == 1 && '0' <= Decimal(n)[0] <= '9' && Decimal(n)[0] as nat - '0' as nat == n
    ensures NumberOf(Decimal(n)) == n
  {
    assert Decimal(n)[..0] == "";
  }

  /**
   * A block holds its rank in brackets, the file name, the headings from outermost to innermost if there
   * are any, and after a newline the whole text of the chunk; the rank can be read back.
   */
  lemma {:induction false} BlockHolds(chunk: Retrieved, rank: nat) returns (digits: string, path: string)
    ensures RenderBlock(chunk, rank) == "[" + digits + "] " + chunk.filename + path + "\n" + chunk.text
    ensures NumberOf(digits) == rank && digits != "" && forall i | 0 <= i < |digits| :: '0' <= digits[i] <= '9'
    ensures path == if Join(" > ", chunk.headings) == "" then "" else "\U{FF5C}" + Join(" > ", chunk.headings)
  {
    digits := Decimal(rank);
    DecimalIsNumber(rank);
    path := if Join(" > ", chunk.headings) == "" then "" else "\U{FF5C}" + Join(" > ", chunk.headings);
    var title := chunk.filename + path;
    assert ("[" + digits + "] ") + title == "[" + digits + "] " + chunk.filename + path;
  }

  /** The blocks of the first `n` chunks, numbered from 1. */
  function Blocks(chunks: seq<Retrieved>, n: nat): seq<string>
    requires n <= |chunks|
  {
    if n == 0 then [] else Blocks(chunks, n - 1) + [RenderBlock(chunks[n - 1], n)]
  }

  function Used(chunks: seq<Retrieved>, n: nat, remaining: int): nat
    requires n <= |chunks|
    decreases |chunks| - n
  {
    if n == |chunks| || |RenderBlock(chunks[n], n + 1)| > remaining then n
    else Used(chunks, n + 1, remaining - |RenderBlock(chunks[n], n + 1)|)
  }

  function Size(blocks: seq<string>): nat {
    if blocks == [] then 0 else Size(blocks[..|blocks| - 1]) + |blocks[|blocks| - 1]|
  }

  /** The trimming loop: a prefix of the chunks, up to the first whose block no longer fits. */
  method FitBudget(chunks: seq<Retrieved>, budget: int) returns (blocks: seq<string>, used: seq<Retrieved>)
    ensures Used(chunks, 0, budget) <= |chunks| && used == chunks[..Used(chunks, 0, budget)]
    ensures blocks == Blocks(chunks, |used|) && |blocks| == |used|
    ensures used != [] ==> Size(blocks) <= budget
    ensures |used| < |chunks| ==> Size(blocks) + |RenderBlock(chunks[|used|], |used| + 1)| > budget
  {
    blocks, used := [], [];
    var remaining := budget;
    for n := 0 to |chunks|
      invariant used == chunks[..n] && blocks == Blocks(chunks, n) && |blocks| == n
      invariant remaining == budget - Size(blocks) && (n > 0 ==> remaining >= 0)
      invariant Used(chunks, 0, budget) == Used(chunks, n, remaining)
    {
      var block := RenderBlock(chunks[n], |used| + 1);
      if |block| > remaining {
        break;
      }
      remaining := remaining - |block|;
      blocks := blocks + [block];
      used := used + [chunks[n]];
      assert blocks[..n] == Blocks(chunks, n);
    }
  }

  /** The chunks used are a prefix of the ranking, so the numbers in the prompt are the ranks 1, 2, 3, ... */
  lemma {:induction false} UsedIsBounded(chunks: seq<Retrieved>, n: nat, remaining: int)
    requires n <= |chunks|
    ensures n <= Used(chunks, n, remaining) <= |chunks|
    decreases |chunks| - n
  {
    if n < |chunks| && |RenderBlock(chunks[n], n + 1)| <= remaining {
      UsedIsBounded(chunks, n + 1, remaining - |RenderBlock(chunks[n], n + 1)|);
    }
  }

  lemma {:induction false} OneMoreBlock(chunks: seq<Retrieved>, n: nat)
    requires n < |chunks|
    ensures Size(Blocks(chunks, n + 1)) == Size(Blocks(chunks, n)) + |RenderBlock(chunks[n], n + 1)|
  {
    var blocks := Blocks(chunks, n + 1);
    assert blocks[..|blocks| - 1] == Blocks(chunks, n);
  }

  /** The blocks of the first `n` chunks fit the budget, and with the next one they would not. */
  predicate FitsFirst(chunks: seq<Retrieved>, n: nat, budget: int) {
    && n <= |chunks| && (n > 0 ==> Size(Blocks(chunks, n)) <= budget)
    && (n < |chunks| ==> Size(Blocks(chunks, n + 1)) > budget)
  }

  lemma {:induction false} UsedFitsFirst(chunks: seq<Retrieved>, n: nat, remaining: int, budget: int)
    requires n <= |chunks| && remaining == budget - Size(Blocks(chunks, n)) && (n > 0 ==> remaining >= 0)
    ensures FitsFirst(chunks, Used(chunks, n, remaining), budget)
    decreases |chunks| - n
  {
    if n < |chunks| {
      OneMoreBlock(chunks, n);
      var block := RenderBlock(chunks[n], n + 1);
      if |block| <= remaining { UsedFitsFirst(chunks, n + 1, remaining - |block|, budget); }
    }
  }

  /** Some chunk is used exactly if the first one's block fits the budget. */
  lemma {:induction false} UsedIff(chunks: seq<Retrieved>, budget: int)
    ensures Used(chunks, 0, budget) > 0 <==> chunks != [] && |RenderBlock(chunks[0], 1)| <= budget
  {
    if chunks != [] {
      var block := RenderBlock(chunks[0], 1);
      if |block| <= budget { UsedIsBounded(chunks, 1, budget - |block|); }
    }
  }

  function InPrompt(chunks: seq<Retrieved>, budget: int): seq<Retrieved> {
    UsedIsBounded(chunks, 0, budget);
    chunks[..Used(chunks, 0, budget)]
  }
}
