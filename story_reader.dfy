/** components/StoryReader.tsx: the page index and the playback-rate choice. */
module StoryReader {
  import opened StoryTypes

  /** The three `speedOptions`. */
  datatype Rate = Slow | Normal | Fast {
    /** The rate given to a new audio source (0.75, 1 and 1.5 are exact in
        binary floating point). */
    function Value(): (v: real)
      ensures v == 0.75 || v == 1.0 || v == 1.5
      ensures v == 1.0 <==> this == Normal
    {
      match this
      case Slow => 0.75
      case Normal => 1.0
      case Fast => 1.5
    }

    function Label(): string {
      match this
      case Slow => "Yavaş"
      case Normal => "Normal"
      case Fast => "Hızlı"
    }
  }

  /** The option buttons, in the order they are shown. */
  const SpeedOptions: seq<Rate> := [Slow, Normal, Fast]

  /** Every rate has a button; the buttons run from slowest to fastest, and
      their labels and values (the buttons' `key`s) are all different. */
  lemma SpeedOptionsTable()
    ensures forall r: Rate :: r in SpeedOptions
    ensures forall i, j :: 0 <= i < j < |SpeedOptions| ==> SpeedOptions[i].Value() < SpeedOptions[j].Value()
    ensures forall i, j :: 0 <= i < j < |SpeedOptions| ==> SpeedOptions[i].Label() != SpeedOptions[j].Label()
  {
    forall r: Rate ensures r in SpeedOptions {
      var i := match r case Slow => 0 case Normal => 1 case Fast => 2;
      assert SpeedOptions[i] == r;
    }
  }

  /** `playbackRate === opt.value`: the highlighted button is exactly the
      chosen option, since no two options share a value. */
  lemma HighlightedOption(rate: Rate, opt: Rate)
    ensures rate.Value() == opt.Value() <==> rate == opt
  {
  }

  /** `Math.min(prev + 1, story.pages.length - 1)` */
  function NextIndex(index: nat, count: nat): (r: nat)
    requires index < count
    ensures r < count
    ensures r == index + 1 || (r == index && index == count - 1)
  {
    if index + 1 < count - 1 then index + 1 else count - 1
  }

  /** `Math.max(prev - 1, 0)` */
  function PreviousIndex(index: nat): (r: nat)
    ensures r <= index
    ensures r == index - 1 || (r == index && index == 0)
  {
    if index - 1 > 0 then index - 1 else 0
  }

  /** The last page is exactly where going forward changes nothing: the
      "next" button is hidden on the one page where it would be a no-op. */
  lemma NextStopsOnLastPage(index: nat, count: nat)
    requires index < count
    ensures NextIndex(index, count) == index <==> index == count - 1
  {
  }

  /** The first page is exactly where going back changes nothing. */
  lemma PreviousStopsOnFirstPage(index: nat)
    ensures PreviousIndex(index) == index <==> index == 0
  {
  }

  datatype Move = Forward | Back

  /** The index after a sequence of button presses. */
  function Navigate(index: nat, count: nat, moves: seq<Move>): (r: nat)
    requires index < count
    ensures r < count
    decreases |moves|
  {
    if moves == [] then index
    else
      var next := match moves[0]
        case Forward => NextIndex(index, count)
        case Back => PreviousIndex(index);
      Navigate(next, count, moves[1..])
  }

  /** k presses of "next" reach page min(index + k, count - 1). */
  lemma {:induction false} ForwardPresses(index: nat, count: nat, k: nat)
    requires index < count
    ensures Navigate(index, count, seq(k, _ => Forward)) == if index + k < count then index + k else count - 1
    decreases k
  {
    var moves := seq(k, _ => Forward);
    if k > 0 {
      assert moves[1..] == seq(k - 1, _ => Forward);
      ForwardPresses(NextIndex(index, count), count, k - 1);
    }
  }

  /** k presses of "previous" reach page max(index - k, 0). */
  lemma {:induction false} BackPresses(index: nat, count: nat, k: nat)
    requires index < count
    ensures Navigate(index, count, seq(k, _ => Back)) == if index >= k then index - k else 0
    decreases k
  {
    var moves := seq(k, _ => Back);
    if k > 0 {
      assert moves[1..] == seq(k - 1, _ => Back);
      BackPresses(PreviousIndex(index), count, k - 1);
    }
  }

  class Reader {
    const story: Story
    var currentPageIndex: nat
    var playbackRate: Rate

    ghost predicate Valid()
      reads this
    {
      currentPageIndex < |story.pages|
    }

    /** A story with no pages is not modelled: the source renders
        `story.pages[0]`, which does not exist. */
    constructor (story: Story)
      requires |story.pages| > 0
      ensures Valid() && this.story == story
      ensures currentPageIndex == 0 && playbackRate == Normal
    {
      this.story := story;
      currentPageIndex := 0;
      playbackRate := Normal;
    }

    method GoToNextPage()
      requires Valid()
      modifies this
      ensures Valid()
      ensures currentPageIndex == NextIndex(old(currentPageIndex), |story.pages|)
      ensures playbackRate == old(playbackRate)
    {
      currentPageIndex := NextIndex(currentPageIndex, |story.pages|);
    }

    method GoToPreviousPage()
      requires Valid()
      modifies this
      ensures Valid()
      ensures currentPageIndex == PreviousIndex(old(currentPageIndex))
      ensures playbackRate == old(playbackRate)
    {
      currentPageIndex := PreviousIndex(currentPageIndex);
    }

    /** `onClick={() => setPlaybackRate(opt.value)}` on one of the options. */
    method SetPlaybackRate(rate: Rate)
      requires Valid()
      modifies this
      ensures Valid()
      ensures playbackRate == rate && currentPageIndex == old(currentPageIndex)
    {
      playbackRate := rate;
    }

    /** The "previous" button is hidden exactly where it would change nothing. */
    function IsFirstPage(): (first: bool)
      reads this
      ensures first <==> PreviousIndex(currentPageIndex) == currentPageIndex
    {
      currentPageIndex == 0
    }

    /** The "next" button is hidden exactly where it would change nothing. */
    function IsLastPage(): (last: bool)
      reads this
      requires Valid()
      ensures last <==> NextIndex(currentPageIndex, |story.pages|) == currentPageIndex
    {
      currentPageIndex == |story.pages| - 1
    }

    /** The page handed to the page player, and the "Sayfa n / m" counter. */
    function CurrentPage(): (p: Page)
      reads this
      requires Valid()
      ensures p in story.pages
    {
      story.pages[currentPageIndex]
    }

    function PageCounter(): (c: (nat, nat))
      reads this
      requires Valid()
      ensures c.0 == currentPageIndex + 1 && c.1 == |story.pages|
      ensures 1 <= c.0 <= c.1
      ensures c.0 == 1 <==> IsFirstPage()
      ensures c.0 == c.1 <==> IsLastPage()
    {
      (currentPageIndex + 1, |story.pages|)
    }
  }
}
