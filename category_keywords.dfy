/** The fixed keyword table of the category suggester. */
module CategoryKeywords {
  /** A keyword and the category names it suggests, most specific first. */
  datatype Keyword = Keyword(word: string, candidates: seq<string>)

  /** The suggester's fixed table, in the order its keys are enumerated. */
  const KeywordTable: seq<Keyword> := [
    Keyword("java", ["programming - java", "programming"]),
    Keyword("python", ["programming - python", "programming"]),
    Keyword("javascript", ["web development", "programming"]),
    Keyword("react", ["web development"]),
    Keyword("node.js", ["web development"]),
    Keyword("html", ["web development"]),
    Keyword("css", ["web development"]),
    Keyword("algorithm", ["algorithms & data structures", "computer science"]),
    Keyword("data structure", ["algorithms & data structures", "computer science"]),
    Keyword("database", ["database management"]),
    Keyword("sql", ["database management"]),
    Keyword("nosql", ["database management"]),
    Keyword("network", ["networking"]),
    Keyword("operating system", ["operating systems"]),
    Keyword("machine learning", ["machine learning"]),
    Keyword("ai", ["machine learning"]),
    Keyword("web project", ["web development"]),
    Keyword("software engineering", ["computer science"]),
    Keyword("coding", ["programming - java", "programming - python", "computer science"]),
    Keyword("algebra", ["math - algebra"]),
    Keyword("calculus", ["math - calculus"]),
    Keyword("statistics", ["math - statistics"]),
    Keyword("probability", ["math - statistics"]),
    Keyword("physics", ["physics - mechanics", "physics - electromagnetism"]),
    Keyword("mechanics", ["physics - mechanics"]),
    Keyword("circuits", ["engineering - electrical", "physics - electromagnetism"]),
    Keyword("electrical", ["engineering - electrical"]),
    Keyword("mechanical", ["engineering - mechanical"]),
    Keyword("thermodynamics", ["engineering - mechanical"]),
    Keyword("fluid dynamics", ["engineering - mechanical"]),
    Keyword("script", ["script writing"]),
    Keyword("screenplay", ["script writing"]),
    Keyword("essay", ["essay writing"]),
    Keyword("research paper", ["essay writing"]),
    Keyword("report", ["report writing"]),
    Keyword("design", ["graphic design"]),
    Keyword("logo", ["graphic design"]),
    Keyword("ui/ux", ["graphic design"]),
    Keyword("presentation", ["graphic design", "script writing"])
  ]

  /** Every keyword of the table is a non-empty word. */
  lemma KeywordsNonEmpty()
    ensures forall k :: 0 <= k < |KeywordTable| ==> KeywordTable[k].word != ""
  {
  }
}
