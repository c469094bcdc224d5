/**
 * The topic grid of the home view (src/components/PopularTopics.js): the first
 * five categories, or all of them once expanded, each with its icon.
 */
module PopularTopics {
  import opened Lists

  datatype Category = Category(id: string, name: string)

  /** The grid shows this many categories while collapsed. */
  const CollapsedCount: nat := 5

  /** The icon table of the grid. */
  const TopicIcons: map<string, string> := map[
    "Science" := "Book",
    "Biography & History" := "User",
    "Politics, Culture & Society" := "Globe",
    "Economics" := "TrendingUp",
    "Environment" := "Leaf",
    "Relationships, Sex & Parenting" := "Heart",
    "Happiness & Self-Improvement" := "Smile",
    "Money, Investing & Personal Finance" := "DollarSign",
    "Productivity" := "Briefcase",
    "Psychology" := "Brain",
    "Motivation & Inspiration" := "Award",
    "Marketing & Sales" := "Megaphone",
    "Management & Leadership" := "Flag",
    "Health, Fitness & Nutrition" := "Activity",
    "Business, Startups & Entrepreneurship" := "TrendingUp",
    "Creativity & Writing" := "Paintbrush",
    "Education & Philosophy" := "BookOpen",
    "Communication" := "MessageCircle",
    "Religion & Spirituality" := "Cross",
    "Technology & the Future" := "Cpu",
    "Work, Careers & Success" := "Briefcase",
    "Mindfulness & Mental Health" := "Headphones"
  ]

  /** The icon of a category name: its entry in the table, `Book` for a name the table lacks. */
  function TopicIcon(name: string): (icon: string)
    ensures name in TopicIcons ==> icon == TopicIcons[name]
    ensures name !in TopicIcons ==> icon == "Book"
  {
    if name in TopicIcons then TopicIcons[name] else "Book"
  }

  /** A few names the table maps, and one it does not. */
  lemma TopicIconExamples()
    ensures TopicIcon("Psychology") == "Brain"
    ensures TopicIcon("Work, Careers & Success") == "Briefcase"
    ensures TopicIcon("Cooking") == "Book"
  {
  }

  /** `displayedCategories`: all categories when expanded, the first five otherwise. */
  function Displayed(categories: seq<Category>, showAll: bool): (shown: seq<Category>)
    ensures |shown| <= |categories| && shown == categories[..|shown|]
    ensures showAll ==> shown == categories
    ensures !showAll ==> |shown| == (if |categories| <= CollapsedCount then |categories| else CollapsedCount)
  {
    if showAll then categories else Take(categories, CollapsedCount)
  }

  /** "View More" is offered exactly while collapsed with more than five categories. */
  predicate ViewMoreVisible(categories: seq<Category>, showAll: bool) {
    |categories| > CollapsedCount && !showAll
  }

  /** "Show Less" is offered exactly while expanded. */
  predicate ShowLessVisible(showAll: bool) {
    showAll
  }

  /**
   * The grid hides a category exactly when "View More" is offered; with five or
   * fewer categories expanding shows nothing new.
   */
  lemma ViewMoreExactlyWhenHidden(categories: seq<Category>, showAll: bool)
    ensures ViewMoreVisible(categories, showAll) <==> |Displayed(categories, showAll)| < |categories|
    ensures |categories| <= CollapsedCount ==> Displayed(categories, false) == Displayed(categories, true)
  {
  }

  /** One tile: the name shown, its icon, and the category id a click or Enter hands to `onTopicClick`. */
  datatype Tile = Tile(name: string, icon: string, selects: string)

  function Tiles(shown: seq<Category>): (ts: seq<Tile>)
    ensures |ts| == |shown|
    ensures forall i :: 0 <= i < |shown| ==>
      ts[i] == Tile(shown[i].name, TopicIcon(shown[i].name), shown[i].id)
  {
    seq(|shown|, i requires 0 <= i < |shown| => Tile(shown[i].name, TopicIcon(shown[i].name), shown[i].id))
  }

  /** The grid's state: the category list it was given and the expanded flag. */
  class TopicGrid {
    const categories: seq<Category>
    var showAll: bool

    constructor (categories: seq<Category>)
      ensures this.categories == categories && !showAll
    {
      this.categories := categories;
      showAll := false;
    }

    function Shown(): seq<Category>
      reads this
    {
      Displayed(categories, showAll)
    }

    /** The "View More" tile. */
    method ViewMore()
      modifies this`showAll
      ensures showAll && Shown() == categories
    {
      showAll := true;
    }

    /** The "Show Less" tile: back to the collapsed grid, whatever was shown before expanding. */
    method ShowLess()
      modifies this`showAll
      ensures !showAll && Shown() == Displayed(categories, false) && Shown() == Take(categories, CollapsedCount)
    {
      showAll := false;
    }
  }
}
