/** The reading lists of the About page (app/about/page.js): the retailer
    label shown on each book card, the four constant book lists, and which
    sections the page renders. */
module About {
  import opened Common

  datatype Book = Book(id: nat, title: string, purchaseUrl: string)

  // ---------------------------------------------------------------------------
  // Retailer classification

  /** getRetailerName(url): an ordered chain of substring tests. */
  function RetailerName(url: string): (r: string)
    ensures r in {"Amazon", "Barnes & Noble", "No Starch Press", "Retailer"}
    ensures Contains(url, "amazon.com") ==> r == "Amazon"
    ensures r == "Barnes & Noble" <==>
      !Contains(url, "amazon.com") && (Contains(url, "barnesandnoble.com") || Contains(url, "bn.com"))
    ensures r == "No Starch Press" <==>
      !Contains(url, "amazon.com") && !Contains(url, "barnesandnoble.com") && !Contains(url, "bn.com")
      && Contains(url, "nostarch.com")
    ensures r == "Retailer" <==>
      !Contains(url, "amazon.com") && !Contains(url, "barnesandnoble.com") && !Contains(url, "bn.com")
      && !Contains(url, "nostarch.com")
  {
    if Contains(url, "amazon.com") then "Amazon"
    else if Contains(url, "barnesandnoble.com") || Contains(url, "bn.com") then "Barnes & Noble"
    else if Contains(url, "nostarch.com") then "No Starch Press"
    else "Retailer"
  }

  /** A classification rule: any of the patterns selects the label. */
  datatype Rule = Rule(patterns: seq<string>, retailer: string)

  predicate MatchesAny(url: string, patterns: seq<string>)
  {
    exists k | 0 <= k < |patterns| :: Contains(url, patterns[k])
  }

  /** First-match-wins over a rule table, with a fallback label. */
  function FirstMatch(rules: seq<Rule>, url: string, fallback: string): (r: string)
    ensures r == fallback || exists k :: 0 <= k < |rules| && r == rules[k].retailer
  {
    if rules == [] then fallback
    else if MatchesAny(url, rules[0].patterns) then rules[0].retailer
    else FirstMatch(rules[1..], url, fallback)
  }

  /** The retailers as a rule table, in the order they are tested. */
  const RetailerRules: seq<Rule> := [
    Rule(["amazon.com"], "Amazon"),
    Rule(["barnesandnoble.com", "bn.com"], "Barnes & Noble"),
    Rule(["nostarch.com"], "No Starch Press")
  ]

  /** getRetailerName is the first-match classifier over the rule table. */
  lemma RetailerNameIsFirstMatch(url: string)
    ensures RetailerName(url) == FirstMatch(RetailerRules, url, "Retailer")
  {
    var rs := RetailerRules;
    assert MatchesAny(url, rs[0].patterns) <==> Contains(url, "amazon.com") by {
      assert rs[0].patterns[0] == "amazon.com";
    }
    assert MatchesAny(url, rs[1].patterns) <==> Contains(url, "barnesandnoble.com") || Contains(url, "bn.com") by {
      assert rs[1].patterns[0] == "barnesandnoble.com" && rs[1].patterns[1] == "bn.com";
    }
    assert MatchesAny(url, rs[2].patterns) <==> Contains(url, "nostarch.com") by {
      assert rs[2].patterns[0] == "nostarch.com";
    }
    var r1, r2, r3 := rs[1..], rs[2..], rs[3..];
    assert r1 == [rs[1], rs[2]] && r1[1..] == r2 && r2 == [rs[2]] && r2[1..] == r3 && r3 == [];
    assert FirstMatch(r3, url, "Retailer") == "Retailer";
    assert FirstMatch(r2, url, "Retailer") == if MatchesAny(url, rs[2].patterns) then "No Starch Press" else "Retailer";
    assert FirstMatch(r1, url, "Retailer") == if MatchesAny(url, rs[1].patterns) then "Barnes & Noble" else FirstMatch(r2, url, "Retailer");
  }

  // ---------------------------------------------------------------------------
  // The book lists

  /** The purchase links of the lists all point at one of three stores; each
      link below is written as the store's address followed by the path. */
  const AmazonPrefix: string := "https://www.amazon.com/"
  const BarnesAndNoblePrefix: string := "https://www.barnesandnoble.com/"
  const NoStarchPrefix: string := "https://nostarch.com/"

  function AmazonUrl(path: string): string { AmazonPrefix + path }
  function BarnesAndNobleUrl(path: string): string { BarnesAndNoblePrefix + path }
  function NoStarchUrl(path: string): string { NoStarchPrefix + path }

  /** Every Amazon link is labelled Amazon. */
  lemma AmazonUrlNamed(path: string)
    ensures RetailerName(AmazonUrl(path)) == "Amazon"
  {
    var url := AmazonUrl(path);
    assert url[12..22] == AmazonPrefix[12..22] == "amazon.com";
    assert OccursAt(url, "amazon.com", 12);
  }

  /** Every Barnes & Noble link gets a named label (Amazon, should the path
      mention amazon.com, else Barnes & Noble). */
  lemma BarnesAndNobleUrlNamed(path: string)
    ensures RetailerName(BarnesAndNobleUrl(path)) != "Retailer"
  {
    var url := BarnesAndNobleUrl(path);
    assert url[12..30] == BarnesAndNoblePrefix[12..30] == "barnesandnoble.com";
    assert OccursAt(url, "barnesandnoble.com", 12);
  }

  /** Every No Starch Press link gets a named label. */
  lemma NoStarchUrlNamed(path: string)
    ensures RetailerName(NoStarchUrl(path)) != "Retailer"
  {
    var url := NoStarchUrl(path);
    assert url[8..20] == NoStarchPrefix[8..20] == "nostarch.com";
    assert OccursAt(url, "nostarch.com", 8);
  }

  /** `currentlyReading` (app/about/page.js:9-42). */
  const CurrentlyReading: seq<Book> := [
    Book(6, "Storytelling with Data: A Data Visualization Guide for Business Professionals",
         AmazonUrl("dp/1119002257")),
    Book(7, "Midnight in Chernobyl: The Untold Story of the World's Greatest Nuclear Disaster",
         BarnesAndNobleUrl("w/midnight-in-chernobyl-adam-higginbotham/1129511685")),
    Book(19, "Naked Statistics: Stripping the Dread from the Data",
         AmazonUrl("dp/039334777X")),
    Book(11, "Why Machines Learn: The Elegant Math Behind Modern AI",
         AmazonUrl("dp/0593185749"))
  ]

  /** `upNext` (app/about/page.js:45-189). */
  const UpNext: seq<Book> := [
    Book(2, "The Design of Web APIs, Second Edition",
         AmazonUrl("dp/1633438147")),
    Book(24, "Probably Overthinking It: How to Use Data to Answer Questions, Avoid Statistical Traps, and Make Better Decisions",
         BarnesAndNobleUrl("w/probably-overthinking-it-allen-b-downey/1143199878")),
    Book(8, "The Nuclear Age: An Epic Race for Arms, Power, and Survival",
         BarnesAndNobleUrl("w/the-nuclear-age-serhii-plokhy/1146855293")),
    Book(34, "The Signal and the Noise: Why So Many Predictions Fail--but Some Don't",
         BarnesAndNobleUrl("w/the-signal-and-the-noise-nate-silver/1114055243")),
    Book(15, "Real-World Machine Learning",
         AmazonUrl("dp/1617291927")),
    Book(20, "Fundamentals of Data Engineering: Plan and Build Robust Data Systems",
         AmazonUrl("dp/1098108302")),
    Book(25, "The Missing README: A Guide for the New Software Engineer",
         BarnesAndNobleUrl("w/the-missing-readme-chris-riccomini/1139537571")),
    Book(26, "Prisoners of Geography: Ten Maps That Explain Everything About the World",
         BarnesAndNobleUrl("w/prisoners-of-geography-tim-marshall/1121494741")),
    Book(27, "Algorithms",
         BarnesAndNobleUrl("w/algorithms-panos-louridas/1136401277")),
    Book(31, "How Charts Lie: Getting Smarter about Visual Information",
         BarnesAndNobleUrl("w/how-charts-lie-alberto-cairo/1130420282")),
    Book(17, "The Art of Statistics: How to Learn from Data",
         AmazonUrl("dp/1541618513")),
    Book(35, "Practical Deep Learning, 2nd Edition",
         NoStarchUrl("practical-deep-learning-python-2E")),
    Book(36, "Data Structures the Fun Way: An Amusing Adventure with Coffee-Filled Examples",
         NoStarchUrl("data-structures-fun-way")),
    Book(42, "Chernobyl Roulette: War in the Nuclear Disaster Zone",
         BarnesAndNobleUrl("w/chernobyl-roulette-serhii-plokhy/1144659202")),
    Book(37, "Math for Deep Learning: What You Need to Know to Understand Neural Networks",
         NoStarchUrl("math-deep-learning")),
    Book(39, "Dive Into Algorithms: A Pythonic Adventure for the Intrepid Beginner",
         NoStarchUrl("Dive-Into-Algorithms")),
    Book(40, "Bayesian Statistics the Fun Way",
         NoStarchUrl("learnbayes")),
    Book(43, "The Great Heist: China's Epic Campaign to Steal America's Secrets",
         BarnesAndNobleUrl("w/the-great-heist-david-r-shedd/1147333812"))
  ]

  /** `tenYearReading` (app/about/page.js:192-249). */
  const TenYearReading: seq<Book> := [
    Book(4, "Deep Learning",
         AmazonUrl("dp/0262035618")),
    Book(10, "Deep Learning: Foundations and Concepts",
         AmazonUrl("dp/3031454677")),
    Book(12, "Foundations of Computer Vision",
         AmazonUrl("dp/0262048973")),
    Book(13, "Theory of Spatial Statistics: A Concise Introduction",
         AmazonUrl("dp/0367146398")),
    Book(14, "Statistical Rethinking: A Bayesian Course with Examples in R and STAN",
         AmazonUrl("dp/036713991X")),
    Book(16, "Deep Learning for Vision Systems",
         AmazonUrl("dp/1617296198")),
    Book(21, "Hands-On Machine Learning with Scikit-Learn, Keras, and TensorFlow",
         AmazonUrl("dp/1492032646"))
  ]

  /** `finishedBooks` (app/about/page.js:252-357). */
  const FinishedBooks: seq<Book> := [
    Book(5, "Designing Machine Learning Systems: An Iterative Process for Production-Ready Applications",
         AmazonUrl("dp/1098107969")),
    Book(9, "In Order to Live: A North Korean Girl's Journey to Freedom",
         BarnesAndNobleUrl("w/in-order-to-live-yeonmi-park/1121236211")),
    Book(1, "Mining Social Media: Finding Stories in Internet Data",
         AmazonUrl("dp/1593279167")),
    Book(23, "Weapons of Math Destruction: How Big Data Increases Inequality and Threatens Democracy",
         AmazonUrl("dp/0553418831")),
    Book(22, "How Not to Be Wrong: The Power of Mathematical Thinking",
         AmazonUrl("dp/1594205221")),
    Book(3, "The Complete Developer",
         AmazonUrl("dp/1718503288")),
    Book(28, "Red Scarf Girl: A Memoir of the Cultural Revolution",
         BarnesAndNobleUrl("w/red-scarf-girl-ji-li-jiang/1102123609")),
    Book(29, "Doing Data Science: Straight Talk from the Frontline",
         BarnesAndNobleUrl("w/doing-data-science-cathy-oneil/1117555191")),
    Book(30, "Things Fall Apart",
         BarnesAndNobleUrl("w/things-fall-apart-chinua-achebe/1116754130")),
    Book(32, "Educated: A Memoir",
         BarnesAndNobleUrl("w/educated-tara-westover/1126358348")),
    Book(18, "How to Lie with Statistics",
         AmazonUrl("dp/0393310728")),
    Book(33, "Python for Data Analysis: Data Wrangling with pandas, NumPy, and Jupyter",
         BarnesAndNobleUrl("w/python-for-data-analysis-wes-mckinney/1141119355")),
    Book(38, "How AI Works: From Sorcery to Science",
         NoStarchUrl("how-ai-works"))
  ]

  /** No book of the list is labelled with the fallback "Retailer". */
  predicate AllNamed(books: seq<Book>)
  {
    forall i :: 0 <= i < |books| ==> RetailerName(books[i].purchaseUrl) != "Retailer"
  }

  /** Every book card in the four lists reads "View on" a named retailer,
      never the fallback "Retailer". */
  lemma CurrentlyReadingNamed()
    ensures AllNamed(CurrentlyReading)
  {
    forall i | 0 <= i < |CurrentlyReading|
      ensures RetailerName(CurrentlyReading[i].purchaseUrl) != "Retailer"
    {
      if i == 0 {
        AmazonUrlNamed("dp/1119002257");
      } else if i == 1 {
        BarnesAndNobleUrlNamed("w/midnight-in-chernobyl-adam-higginbotham/1129511685");
      } else if i == 2 {
        AmazonUrlNamed("dp/039334777X");
      } else {
        AmazonUrlNamed("dp/0593185749");
      }
    }
  }

  lemma UpNextNamed0To3()
    ensures forall i :: 0 <= i < 3 ==> RetailerName(UpNext[i].purchaseUrl) != "Retailer"
  {
    forall i | 0 <= i < 3
      ensures RetailerName(UpNext[i].purchaseUrl) != "Retailer"
    {
      if i == 0 {
        AmazonUrlNamed("dp/1633438147");
      } else if i == 1 {
        BarnesAndNobleUrlNamed("w/probably-overthinking-it-allen-b-downey/1143199878");
      } else {
        BarnesAndNobleUrlNamed("w/the-nuclear-age-serhii-plokhy/1146855293");
      }
    }
  }

  lemma UpNextNamed3To6()
    ensures forall i :: 3 <= i < 6 ==> RetailerName(UpNext[i].purchaseUrl) != "Retailer"
  {
    forall i | 3 <= i < 6
      ensures RetailerName(UpNext[i].purchaseUrl) != "Retailer"
    {
      if i == 3 {
        BarnesAndNobleUrlNamed("w/the-signal-and-the-noise-nate-silver/1114055243");
      } else if i == 4 {
        AmazonUrlNamed("dp/1617291927");
      } else {
        AmazonUrlNamed("dp/1098108302");
      }
    }
  }

  lemma UpNextNamed6To9()
    ensures forall i :: 6 <= i < 9 ==> RetailerName(UpNext[i].purchaseUrl) != "Retailer"
  {
    forall i | 6 <= i < 9
      ensures RetailerName(UpNext[i].purchaseUrl) != "Retailer"
    {
      if i == 6 {
        BarnesAndNobleUrlNamed("w/the-missing-readme-chris-riccomini/1139537571");
      } else if i == 7 {
        BarnesAndNobleUrlNamed("w/prisoners-of-geography-tim-marshall/1121494741");
      } else {
        BarnesAndNobleUrlNamed("w/algorithms-panos-louridas/1136401277");
      }
    }
  }

  lemma UpNextNamed9To12()
    ensures forall i :: 9 <= i < 12 ==> RetailerName(UpNext[i].purchaseUrl) != "Retailer"
  {
    forall i | 9 <= i < 12
      ensures RetailerName(UpNext[i].purchaseUrl) != "Retailer"
    {
      if i == 9 {
        BarnesAndNobleUrlNamed("w/how-charts-lie-alberto-cairo/1130420282");
      } else if i == 10 {
        AmazonUrlNamed("dp/1541618513");
      } else {
        NoStarchUrlNamed("practical-deep-learning-python-2E");
      }
    }
  }

  lemma UpNextNamed12To15()
    ensures forall i :: 12 <= i < 15 ==> RetailerName(UpNext[i].purchaseUrl) != "Retailer"
  {
    forall i | 12 <= i < 15
      ensures RetailerName(UpNext[i].purchaseUrl) != "Retailer"
    {
      if i == 12 {
        NoStarchUrlNamed("data-structures-fun-way");
      } else if i == 13 {
        BarnesAndNobleUrlNamed("w/chernobyl-roulette-serhii-plokhy/1144659202");
      } else {
        NoStarchUrlNamed("math-deep-learning");
      }
    }
  }

  lemma UpNextNamed15To18()
    ensures forall i :: 15 <= i < 18 ==> RetailerName(UpNext[i].purchaseUrl) != "Retailer"
  {
    forall i | 15 <= i < 18
      ensures RetailerName(UpNext[i].purchaseUrl) != "Retailer"
    {
      if i == 15 {
        NoStarchUrlNamed("Dive-Into-Algorithms");
      } else if i == 16 {
        NoStarchUrlNamed("learnbayes");
      } else {
        BarnesAndNobleUrlNamed("w/the-great-heist-david-r-shedd/1147333812");
      }
    }
  }

  lemma UpNextNamed()
    ensures AllNamed(UpNext)
  {
    UpNextNamed0To3();
    UpNextNamed3To6();
    UpNextNamed6To9();
    UpNextNamed9To12();
    UpNextNamed12To15();
    UpNextNamed15To18();
  }

  lemma TenYearReadingNamed()
    ensures AllNamed(TenYearReading)
  {
    forall i | 0 <= i < |TenYearReading|
      ensures RetailerName(TenYearReading[i].purchaseUrl) != "Retailer"
    {
      if i == 0 {
        AmazonUrlNamed("dp/0262035618");
      } else if i == 1 {
        AmazonUrlNamed("dp/3031454677");
      } else if i == 2 {
        AmazonUrlNamed("dp/0262048973");
      } else if i == 3 {
        AmazonUrlNamed("dp/0367146398");
      } else if i == 4 {
        AmazonUrlNamed("dp/036713991X");
      } else if i == 5 {
        AmazonUrlNamed("dp/1617296198");
      } else {
        AmazonUrlNamed("dp/1492032646");
      }
    }
  }

  lemma FinishedBooksNamed0To4()
    ensures forall i :: 0 <= i < 4 ==> RetailerName(FinishedBooks[i].purchaseUrl) != "Retailer"
  {
    forall i | 0 <= i < 4
      ensures RetailerName(FinishedBooks[i].purchaseUrl) != "Retailer"
    {
      if i == 0 {
        AmazonUrlNamed("dp/1098107969");
      } else if i == 1 {
        BarnesAndNobleUrlNamed("w/in-order-to-live-yeonmi-park/1121236211");
      } else if i == 2 {
        AmazonUrlNamed("dp/1593279167");
      } else {
        AmazonUrlNamed("dp/0553418831");
      }
    }
  }

  lemma FinishedBooksNamed4To8()
    ensures forall i :: 4 <= i < 8 ==> RetailerName(FinishedBooks[i].purchaseUrl) != "Retailer"
  {
    forall i | 4 <= i < 8
      ensures RetailerName(FinishedBooks[i].purchaseUrl) != "Retailer"
    {
      if i == 4 {
        AmazonUrlNamed("dp/1594205221");
      } else if i == 5 {
        AmazonUrlNamed("dp/1718503288");
      } else if i == 6 {
        BarnesAndNobleUrlNamed("w/red-scarf-girl-ji-li-jiang/1102123609");
      } else {
        BarnesAndNobleUrlNamed("w/doing-data-science-cathy-oneil/1117555191");
      }
    }
  }

  lemma FinishedBooksNamed8To13()
    ensures forall i :: 8 <= i < 13 ==> RetailerName(FinishedBooks[i].purchaseUrl) != "Retailer"
  {
    forall i | 8 <= i < 13
      ensures RetailerName(FinishedBooks[i].purchaseUrl) != "Retailer"
    {
      if i == 8 {
        BarnesAndNobleUrlNamed("w/things-fall-apart-chinua-achebe/1116754130");
      } else if i == 9 {
        BarnesAndNobleUrlNamed("w/educated-tara-westover/1126358348");
      } else if i == 10 {
        AmazonUrlNamed("dp/0393310728");
      } else if i == 11 {
        BarnesAndNobleUrlNamed("w/python-for-data-analysis-wes-mckinney/1141119355");
      } else {
        NoStarchUrlNamed("how-ai-works");
      }
    }
  }

  lemma FinishedBooksNamed()
    ensures AllNamed(FinishedBooks)
  {
    FinishedBooksNamed0To4();
    FinishedBooksNamed4To8();
    FinishedBooksNamed8To13();
  }

  /** The ids of a list are pairwise distinct (they are the React keys). */
  predicate DistinctIds(books: seq<Book>)
  {
    forall i, j :: 0 <= i < j < |books| ==> books[i].id != books[j].id
  }

  /** A map sending each id back to its position shows that no id repeats. */
  lemma DistinctByPosition(books: seq<Book>, position: map<nat, nat>)
    requires forall i :: 0 <= i < |books| ==> books[i].id in position && position[books[i].id] == i
    ensures DistinctIds(books)
  {
    forall i, j | 0 <= i < j < |books|
      ensures books[i].id != books[j].id
    {
      assert position[books[i].id] == i && position[books[j].id] == j;
    }
  }

  lemma CurrentlyReadingIdsDistinct()
    ensures DistinctIds(CurrentlyReading)
  {
    DistinctByPosition(CurrentlyReading, map[6 := 0, 7 := 1, 19 := 2, 11 := 3]);
  }

  lemma UpNextIdsDistinct()
    ensures DistinctIds(UpNext)
  {
    DistinctByPosition(UpNext, map[2 := 0, 24 := 1, 8 := 2, 34 := 3, 15 := 4, 20 := 5, 25 := 6, 26 := 7, 27 := 8, 31 := 9, 17 := 10, 35 := 11, 36 := 12, 42 := 13, 37 := 14, 39 := 15, 40 := 16, 43 := 17]);
  }

  lemma TenYearReadingIdsDistinct()
    ensures DistinctIds(TenYearReading)
  {
    DistinctByPosition(TenYearReading, map[4 := 0, 10 := 1, 12 := 2, 13 := 3, 14 := 4, 16 := 5, 21 := 6]);
  }

  lemma FinishedBooksIdsDistinct()
    ensures DistinctIds(FinishedBooks)
  {
    DistinctByPosition(FinishedBooks, map[5 := 0, 9 := 1, 1 := 2, 23 := 3, 22 := 4, 3 := 5, 28 := 6, 29 := 7, 30 := 8, 32 := 9, 18 := 10, 33 := 11, 38 := 12]);
  }

  // ---------------------------------------------------------------------------
  // Rendering

  /** One rendered book card: its React key, its link and its overlay text. */
  datatype Card = Card(key: nat, href: string, overlay: string)

  /** renderBookGrid(books), and the finished-books grid: one card per book, in order. */
  function RenderCards(books: seq<Book>): (cards: seq<Card>)
    ensures |cards| == |books|
    ensures forall i :: 0 <= i < |books| ==>
      cards[i] == Card(books[i].id, books[i].purchaseUrl, "View on " + RetailerName(books[i].purchaseUrl))
  {
    seq(|books|, i requires 0 <= i < |books| => Card(books[i].id, books[i].purchaseUrl, "View on " + RetailerName(books[i].purchaseUrl)))
  }

  /** Card keys are unique exactly when the book ids are. */
  predicate DistinctKeys(cards: seq<Card>)
  {
    forall i, j :: 0 <= i < j < |cards| ==> cards[i].key != cards[j].key
  }

  lemma CardKeysUniqueIffIdsDistinct(books: seq<Book>)
    ensures DistinctIds(books) <==> DistinctKeys(RenderCards(books))
  {
    var cards := RenderCards(books);
    assert forall i :: 0 <= i < |books| ==> cards[i].key == books[i].id;
  }

  /** The section headings the page renders, in order. */
  function SectionTitles(finished: seq<Book>): (titles: seq<string>)
    ensures "Recently Read" in titles <==> |finished| > 0
    ensures |titles| >= 3 && titles[..3] == ["What I'm Reading", "Up Next", "Deeper Knowledge"]
  {
    ["What I'm Reading", "Up Next", "Deeper Knowledge"] + if |finished| > 0 then ["Recently Read"] else []
  }

  /** With the lists as written, all four sections are shown. */
  lemma AllSectionsShown()
    ensures SectionTitles(FinishedBooks) == ["What I'm Reading", "Up Next", "Deeper Knowledge", "Recently Read"]
  {
  }
}
