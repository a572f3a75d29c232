/**
 * The solution configurator's recommendation lookup (main.js, `getSolutions`):
 * a static table from industry and challenge to two canned solutions, walked
 * in the order the challenges were selected, keeping at most three entries.
 */
module Solutions {

  /** One canned recommendation. */
  datatype Solution = Solution(name: string, description: string, timeline: string)

  /** industry -> challenge -> solutions */
  type Table = map<string, map<string, seq<Solution>>>

  /** The lists of one industry as the page defines them: four challenges, two solutions each. */
  type IndustryLists = lists: map<string, seq<Solution>> | WellFormed(lists)
    witness Lists(BlankPair, BlankPair, BlankPair, BlankPair)

  const BlankPair: seq<Solution> := [Solution("", "", ""), Solution("", "", "")]

  const Industries: set<string> := {"healthcare", "finance", "retail", "manufacturing", "d2c", "technology"}
  const Challenges: set<string> := {"automation", "analytics", "customer", "prediction"}

  /** At most this many recommendations are shown. */
  const MaxShown: nat := 3

  /** `solutionMap` of `getSolutions`. */
  const SolutionMap: map<string, IndustryLists> :=
    Catalogue(Healthcare, Finance, Retail, Manufacturing, DirectToConsumer, Technology)

  /** The table of the six industries. */
  function Catalogue(healthcare: IndustryLists, finance: IndustryLists, retail: IndustryLists,
                     manufacturing: IndustryLists, d2c: IndustryLists,
                     technology: IndustryLists): (table: map<string, IndustryLists>)
    ensures table.Keys == Industries
  {
    map["healthcare" := healthcare, "finance" := finance, "retail" := retail,
        "manufacturing" := manufacturing, "d2c" := d2c, "technology" := technology]
  }

  /** The lists of one industry, keyed by challenge. */
  function Lists(automation: seq<Solution>, analytics: seq<Solution>,
                 customer: seq<Solution>, prediction: seq<Solution>): (lists: map<string, seq<Solution>>)
    requires |automation| == |analytics| == |customer| == |prediction| == 2
    ensures WellFormed(lists)
    ensures lists["automation"] == automation && lists["analytics"] == analytics
    ensures lists["customer"] == customer && lists["prediction"] == prediction
  {
    map["automation" := automation, "analytics" := analytics,
        "customer" := customer, "prediction" := prediction]
  }

  /** The lists for "healthcare". */
  const Healthcare: IndustryLists := Lists(
    // automation
    [
        Solution("Patient Flow Optimization", "Automate patient scheduling and resource allocation", "8-12 weeks"),
        Solution("Medical Records Processing", "AI-powered document classification and extraction", "6-10 weeks")
    ],
    // analytics
    [
        Solution("Clinical Decision Support", "AI-assisted diagnosis and treatment recommendations", "12-16 weeks"),
        Solution("Population Health Analytics", "Predictive models for disease prevention", "10-14 weeks")
    ],
    // customer
    [
        Solution("AI Chatbot for Patients", "24/7 patient support and appointment scheduling", "4-8 weeks"),
        Solution("Personalized Care Plans", "AI-driven personalized treatment recommendations", "8-12 weeks")
    ],
    // prediction
    [
        Solution("Disease Outbreak Prediction", "Early warning systems for epidemic prevention", "16-20 weeks"),
        Solution("Patient Risk Stratification", "Identify high-risk patients before complications", "12-16 weeks")
    ])

  /** The lists for "finance". */
  const Finance: IndustryLists := Lists(
    // automation
    [
        Solution("Automated Trading Systems", "AI-powered algorithmic trading strategies", "12-16 weeks"),
        Solution("Document Processing", "Automate loan applications and compliance documents", "6-10 weeks")
    ],
    // analytics
    [
        Solution("Risk Assessment Models", "Real-time credit and market risk analysis", "10-14 weeks"),
        Solution("Fraud Detection System", "AI-powered transaction monitoring and alerts", "8-12 weeks")
    ],
    // customer
    [
        Solution("Personalized Banking", "AI-driven product recommendations and advice", "8-12 weeks"),
        Solution("Chatbot Financial Advisor", "24/7 customer support and financial guidance", "6-10 weeks")
    ],
    // prediction
    [
        Solution("Market Trend Prediction", "AI forecasting for investment strategies", "16-20 weeks"),
        Solution("Customer Churn Prediction", "Identify at-risk customers before they leave", "10-14 weeks")
    ])

  /** The lists for "retail". */
  const Retail: IndustryLists := Lists(
    // automation
    [
        Solution("Inventory Management", "AI-powered demand forecasting and stock optimization", "8-12 weeks"),
        Solution("Supply Chain Automation", "Automated ordering and logistics coordination", "10-14 weeks")
    ],
    // analytics
    [
        Solution("Customer Behavior Analysis", "Deep insights into shopping patterns and preferences", "12-16 weeks"),
        Solution("Pricing Optimization", "Dynamic pricing based on market conditions", "6-10 weeks")
    ],
    // customer
    [
        Solution("Personalized Shopping", "AI-driven product recommendations and experiences", "10-14 weeks"),
        Solution("Visual Search", "AI-powered image-based product discovery", "8-12 weeks")
    ],
    // prediction
    [
        Solution("Demand Forecasting", "Predict future sales trends and seasonal patterns", "14-18 weeks"),
        Solution("Customer Lifetime Value", "Predict long-term customer value and behavior", "12-16 weeks")
    ])

  /** The lists for "manufacturing". */
  const Manufacturing: IndustryLists := Lists(
    // automation
    [
        Solution("Quality Control AI", "Automated defect detection and quality assurance", "10-14 weeks"),
        Solution("Predictive Maintenance", "AI-powered equipment monitoring and maintenance", "12-16 weeks")
    ],
    // analytics
    [
        Solution("Production Optimization", "AI-driven efficiency and throughput improvements", "8-12 weeks"),
        Solution("Energy Management", "Optimize energy consumption and costs", "6-10 weeks")
    ],
    // customer
    [
        Solution("Smart Product Support", "AI-powered customer service and troubleshooting", "6-10 weeks"),
        Solution("Custom Product Configurator", "AI-assisted product customization and design", "10-14 weeks")
    ],
    // prediction
    [
        Solution("Demand Planning", "Accurate forecasting for production planning", "12-16 weeks"),
        Solution("Supply Chain Risk", "Predict and mitigate supply chain disruptions", "14-18 weeks")
    ])

  /** The lists for "d2c". */
  const DirectToConsumer: IndustryLists := Lists(
    // automation
    [
        Solution("Order Fulfillment Automation", "Automate order processing and shipping workflows", "6-10 weeks"),
        Solution("Inventory Sync System", "Real-time inventory across all sales channels", "8-12 weeks")
    ],
    // analytics
    [
        Solution("Customer Journey Analytics", "Track and optimize every touchpoint", "10-14 weeks"),
        Solution("Product Performance Insights", "Data-driven product development and optimization", "8-12 weeks")
    ],
    // customer
    [
        Solution("AI Shopping Assistant", "Personalized product recommendations and support", "8-12 weeks"),
        Solution("Social Media Automation", "Automated content creation and engagement", "6-10 weeks")
    ],
    // prediction
    [
        Solution("Trend Prediction Engine", "Identify emerging market trends early", "12-16 weeks"),
        Solution("Customer Lifetime Value", "Predict long-term customer relationships", "10-14 weeks")
    ])

  /** The lists for "technology". */
  const Technology: IndustryLists := Lists(
    // automation
    [
        Solution("Code Review Automation", "AI-powered code quality and security checks", "6-10 weeks"),
        Solution("DevOps Pipeline Optimization", "Automate deployment and testing workflows", "8-12 weeks")
    ],
    // analytics
    [
        Solution("User Behavior Analytics", "Deep insights into product usage patterns", "8-12 weeks"),
        Solution("Performance Monitoring", "Real-time system performance and optimization", "6-10 weeks")
    ],
    // customer
    [
        Solution("AI Support Bot", "Intelligent technical support and troubleshooting", "6-10 weeks"),
        Solution("Personalized Onboarding", "Customized user onboarding experiences", "8-12 weeks")
    ],
    // prediction
    [
        Solution("System Failure Prediction", "Predict and prevent system outages", "12-16 weeks"),
        Solution("User Churn Prevention", "Identify and retain at-risk users", "10-14 weeks")
    ])

  /** The list for one industry and challenge; empty when either key is missing. */
  function Lookup(table: Table, industry: string, challenge: string): seq<Solution>
  {
    if industry in table && challenge in table[industry] then table[industry][challenge] else []
  }

  /** The lists of the challenges, concatenated in the order the challenges are given. */
  function Gathered(table: Table, industry: string, challenges: seq<string>): seq<Solution>
  {
    if challenges == [] then []
    else
      var n := |challenges| - 1;
      Gathered(table, industry, challenges[..n]) + Lookup(table, industry, challenges[n])
  }

  /** What `getSolutions` returns: the first `min(3, total)` gathered entries. */
  function Recommend(table: Table, industry: string, challenges: seq<string>): (r: seq<Solution>)
    ensures |r| <= MaxShown
    ensures var all := Gathered(table, industry, challenges);
            |r| == (if |all| <= MaxShown then |all| else MaxShown) && r == all[..|r|]
  {
    var all := Gathered(table, industry, challenges);
    all[..if |all| <= MaxShown then |all| else MaxShown]
  }

  /**
   * `getSolutions` over a table (the page passes `SolutionMap`): walk the
   * challenges, concatenating the list of each one the table holds for the
   * industry, and keep the first three entries.
   */
  method GetSolutions(table: Table, industry: string, challenges: seq<string>) returns (solutions: seq<Solution>)
    ensures solutions == Recommend(table, industry, challenges)
  {
    var found: seq<Solution> := [];
    for i := 0 to |challenges|
      invariant found == Gathered(table, industry, challenges[..i])
    {
      assert challenges[..i + 1][..i] == challenges[..i];
      var challenge := challenges[i];
      if industry in table && challenge in table[industry] {
        found := found + table[industry][challenge];
      }
    }
    assert challenges[..|challenges|] == challenges;
    solutions := found[..if |found| <= MaxShown then |found| else MaxShown];
  }

  /** Gathering two runs of challenges one after the other concatenates their results. */
  lemma {:induction false} GatheredAppend(table: Table, industry: string, a: seq<string>, b: seq<string>)
    ensures Gathered(table, industry, a + b) == Gathered(table, industry, a) + Gathered(table, industry, b)
  {
    if b == [] {
      assert a + b == a;
    } else {
      var n := |b| - 1;
      assert (a + b)[..|a + b| - 1] == a + b[..n];
      GatheredAppend(table, industry, a, b[..n]);
    }
  }

  /** An industry the table does not hold yields nothing, whatever the challenges. */
  lemma {:induction false} UnknownIndustry(table: Table, industry: string, challenges: seq<string>)
    requires industry !in table
    ensures Gathered(table, industry, challenges) == []
    ensures Recommend(table, industry, challenges) == []
  {
    if challenges != [] {
      UnknownIndustry(table, industry, challenges[..|challenges| - 1]);
    }
  }

  /** The challenges the table holds for the industry, in their original order. */
  function KnownChallenges(table: Table, industry: string, challenges: seq<string>): seq<string>
  {
    if challenges == [] then []
    else
      var n := |challenges| - 1;
      KnownChallenges(table, industry, challenges[..n])
        + (if industry in table && challenges[n] in table[industry] then [challenges[n]] else [])
  }

  /** Challenges the table does not hold for the industry are skipped. */
  lemma {:induction false} UnknownChallengesSkipped(table: Table, industry: string, challenges: seq<string>)
    ensures Gathered(table, industry, challenges)
            == Gathered(table, industry, KnownChallenges(table, industry, challenges))
  {
    if challenges != [] {
      var n := |challenges| - 1;
      var known := KnownChallenges(table, industry, challenges[..n]);
      UnknownChallengesSkipped(table, industry, challenges[..n]);
      if industry in table && challenges[n] in table[industry] {
        GatheredAppend(table, industry, known, [challenges[n]]);
        assert [challenges[n]][..0] == [];
      } else {
        assert KnownChallenges(table, industry, challenges) == known;
      }
    }
  }

  /** Every list of an industry has exactly two entries. */
  ghost predicate TwoPerList(lists: map<string, seq<Solution>>)
  {
    forall challenge :: challenge in lists ==> |lists[challenge]| == 2
  }

  /** With two entries per list, two solutions are gathered per known challenge. */
  lemma {:induction false} GatheredLength(table: Table, industry: string, challenges: seq<string>)
    requires industry in table ==> TwoPerList(table[industry])
    ensures |Gathered(table, industry, challenges)| == 2 * |KnownChallenges(table, industry, challenges)|
  {
    if challenges != [] {
      GatheredLength(table, industry, challenges[..|challenges| - 1]);
    }
  }

  /** An industry's lists cover the four challenges with two solutions each. */
  ghost predicate WellFormed(lists: map<string, seq<Solution>>)
  {
    lists.Keys == Challenges && TwoPerList(lists)
  }

  /** The table covers six industries. */
  lemma SolutionMapIndustries()
    ensures SolutionMap.Keys == Industries
  {
  }

  /** Every industry of the table has all four challenges with two solutions per list. */
  lemma SolutionMapShape()
    ensures forall industry :: industry in SolutionMap ==> WellFormed(SolutionMap[industry])
  {
  }

  /** For an industry whose lists are well formed every one of the four challenges is known. */
  lemma {:induction false} AllChallengesKnown(table: Table, industry: string, challenges: seq<string>)
    requires industry in table && WellFormed(table[industry])
    requires forall i :: 0 <= i < |challenges| ==> challenges[i] in Challenges
    ensures KnownChallenges(table, industry, challenges) == challenges
  {
    if challenges != [] {
      var n := |challenges| - 1;
      AllChallengesKnown(table, industry, challenges[..n]);
      assert challenges[..n] + [challenges[n]] == challenges;
    }
  }

  /**
   * For an industry whose lists are well formed and k selected challenges
   * from the four, the configurator shows min(3, 2k) solutions.
   */
  lemma RecommendCount(table: Table, industry: string, challenges: seq<string>)
    requires industry in table && WellFormed(table[industry])
    requires forall i :: 0 <= i < |challenges| ==> challenges[i] in Challenges
    ensures |Recommend(table, industry, challenges)|
            == if 2 * |challenges| <= MaxShown then 2 * |challenges| else MaxShown
  {
    AllChallengesKnown(table, industry, challenges);
    GatheredLength(table, industry, challenges);
  }

  /** On the page's own table, a known industry with k challenges from the four gets min(3, 2k) solutions. */
  lemma PageRecommendCount(industry: string, challenges: seq<string>)
    requires industry in Industries
    requires forall i :: 0 <= i < |challenges| ==> challenges[i] in Challenges
    ensures |Recommend(SolutionMap, industry, challenges)|
            == if 2 * |challenges| <= MaxShown then 2 * |challenges| else MaxShown
  {
    SolutionMapIndustries();
    SolutionMapShape();
    RecommendCount(SolutionMap, industry, challenges);
  }
}
