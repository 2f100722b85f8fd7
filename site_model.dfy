/**
 * app/models/model.py: the `Site` row's custom disclaimer with its length guard,
 * and `Site.generate_code`, which draws random codes until one is not taken.
 */
module SiteModel {
  import opened Wrappers
  import opened Helper

  /** The longest disclaimer the setter accepts. */
  const MaxDisclaimerLength := 512

  datatype SiteError = ValueError(message: string)

  class Site {
    const appId: string
    const code: string
    var customDisclaimer: string

    /** A new row: the disclaimer column defaults to the empty string. */
    constructor (appId: string, code: string)
      ensures this.appId == appId && this.code == code && customDisclaimer == ""
    {
      this.appId := appId;
      this.code := code;
      customDisclaimer := "";
    }

    /** The `custom_disclaimer` getter. */
    function CustomDisclaimer(): (r: string)
      reads this
      ensures r == customDisclaimer
    {
      customDisclaimer
    }

    /** The setter: more than 512 characters raises and leaves the row unchanged. */
    method SetCustomDisclaimer(value: string) returns (r: Result<(), SiteError>)
      modifies this
      ensures r.Err? <==> |value| > MaxDisclaimerLength
      ensures r.Err? ==> r.error == ValueError("Custom disclaimer cannot exceed 512 characters.")
                         && customDisclaimer == old(customDisclaimer)
      ensures r.Ok? ==> customDisclaimer == value
      ensures |old(customDisclaimer)| <= MaxDisclaimerLength ==> |customDisclaimer| <= MaxDisclaimerLength
    {
      if |value| > MaxDisclaimerLength {
        r := Err(ValueError("Custom disclaimer cannot exceed 512 characters."));
      } else {
        customDisclaimer := value;
        r := Ok(());
      }
    }
  }

  /** The code `generate_string(n)` yields for one batch of alphabet draws. */
  function Candidate(n: int, draws: seq<AlphabetIndex>): (c: string)
    requires |draws| >= RangeLength(n)
    ensures |c| == RangeLength(n)
    ensures forall i :: 0 <= i < |c| ==> IsAsciiAlphanumeric(c[i])
  {
    seq(RangeLength(n), i requires 0 <= i < RangeLength(n) => AlphabetChar(draws[i]))
  }

  predicate EnoughDraws(n: int, batches: seq<seq<AlphabetIndex>>)
  {
    forall k :: 0 <= k < |batches| ==> |batches[k]| >= RangeLength(n)
  }

  /** The first candidate, in draw order, that no site uses; `None` when every batch collides. */
  function FirstFree(n: int, taken: set<string>, batches: seq<seq<AlphabetIndex>>): (r: Option<string>)
    requires EnoughDraws(n, batches)
    ensures r.Some? ==> r.value !in taken && |r.value| == RangeLength(n)
    ensures r.Some? ==> forall i :: 0 <= i < |r.value| ==> IsAsciiAlphanumeric(r.value[i])
    decreases |batches|
  {
    if |batches| == 0 then None
    else if Candidate(n, batches[0]) !in taken then Some(Candidate(n, batches[0]))
    else FirstFree(n, taken, batches[1..])
  }

  /** `None` from the search means every drawn candidate was already a site code. */
  lemma {:induction false} FirstFreeNoneMeansAllTaken(n: int, taken: set<string>, batches: seq<seq<AlphabetIndex>>)
    requires EnoughDraws(n, batches)
    requires FirstFree(n, taken, batches).None?
    ensures forall k :: 0 <= k < |batches| ==> Candidate(n, batches[k]) in taken
  {
    if |batches| > 0 {
      FirstFreeNoneMeansAllTaken(n, taken, batches[1..]);
      assert forall k :: 1 <= k < |batches| ==> batches[k] == batches[1..][k - 1];
    }
  }

  /**
   * `Site.generate_code(n)`: the `taken` set is the codes of the sites table, and
   * `batches` the successive random draws; `generate_code` retries without bound, the
   * model stops when the supplied draws run out.
   */
  method GenerateCode(n: int, taken: set<string>, batches: seq<seq<AlphabetIndex>>) returns (r: Option<string>)
    requires EnoughDraws(n, batches)
    ensures r == FirstFree(n, taken, batches)
    ensures r.Some? ==> r.value !in taken && |r.value| == RangeLength(n)
  {
    if |batches| == 0 {
      return None;
    }
    var result := GenerateString(n, batches[0]);
    assert result == Candidate(n, batches[0]);
    var k := 1;
    while result in taken && k < |batches|
      invariant 1 <= k <= |batches|
      invariant result == Candidate(n, batches[k - 1])
      invariant FirstFree(n, taken, batches) == if result in taken then FirstFree(n, taken, batches[k..]) else Some(result)
    {
      assert batches[k..][1..] == batches[k + 1..];
      result := GenerateString(n, batches[k]);
      assert result == Candidate(n, batches[k]);
      k := k + 1;
    }
    if result in taken {
      return None;
    }
    return Some(result);
  }
}
