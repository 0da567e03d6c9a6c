/** The mocked Kickstarter project search (api/kickstarter.py). Reading the
    JSON file is a parameter: `None` stands for a missing or undecodable
    file, which makes the search fall back to a built-in list. */
module Kickstarter {
  import opened Wrappers
  import opened Text
  import opened Sequences

  /** One project record: the three keys every record carries. */
  datatype Project = Project(title: string, blurb: string, link: string)

  /** The list searched when the data file cannot be read. */
  const DefaultProjects: seq<Project> := [
    Project("Awesome Game Project",
            "A revolutionary new game that will change everything.",
            "https://www.kickstarter.com/projects/user/awesome-game-project"),
    Project("Indie RPG Adventure",
            "Explore a vast world in this epic role-playing game.",
            "https://www.kickstarter.com/projects/user/indie-rpg-adventure")
  ]

  /** The records actually searched: the file's contents, or the default list. */
  function Source(loaded: Option<seq<Project>>): (ps: seq<Project>)
    ensures loaded.None? ==> ps == DefaultProjects
    ensures loaded.Some? ==> ps == loaded.value
  {
    match loaded
    case None => DefaultProjects
    case Some(ps) => ps
  }

  /** A project matches an already lower-cased query when the query occurs in
      its lower-cased title or its lower-cased blurb. */
  predicate Matches(p: Project, lowerQuery: string)
  {
    Contains(Lower(p.title), lowerQuery) || Contains(Lower(p.blurb), lowerQuery)
  }

  /** `get_projects`: the empty query returns every record; any other query
      returns, in order and with their multiplicities, exactly the records
      matching the lower-cased query. */
  function GetProjects(loaded: Option<seq<Project>>, query: string): (r: seq<Project>)
    ensures query == [] ==> r == Source(loaded)
    ensures query != [] ==>
      forall p :: p in r <==> p in Source(loaded) && Matches(p, Lower(query))
    ensures query != [] ==>
      forall p :: Matches(p, Lower(query)) ==> multiset(r)[p] == multiset(Source(loaded))[p]
    ensures IsSubsequence(r, Source(loaded))
  {
    var projects := Source(loaded);
    if query == [] then
      SubsequenceReflexive(projects);
      projects
    else
      var lq := Lower(query);
      var keep := (p: Project) => Matches(p, lq);
      assert forall p :: keep(p) == Matches(p, lq);
      Filter(projects, keep)
  }

  /** On a two-record source, a non-empty query that matches the first
      record and not the second returns the first record alone. */
  lemma SearchPairFirstOnly(loaded: Option<seq<Project>>, query: string, lowered: string)
    requires |Source(loaded)| == 2 && query != [] && Lower(query) == lowered
    requires Matches(Source(loaded)[0], lowered) && !Matches(Source(loaded)[1], lowered)
    ensures GetProjects(loaded, query) == [Source(loaded)[0]]
  {
    var ps := Source(loaded);
    assert ps == [ps[0], ps[1]];
    FilterPair(ps[0], ps[1], (p: Project) => Matches(p, lowered));
  }

  /** On a two-record source, a non-empty query that matches neither record
      returns nothing. */
  lemma SearchPairNone(loaded: Option<seq<Project>>, query: string, lowered: string)
    requires |Source(loaded)| == 2 && query != [] && Lower(query) == lowered
    requires !Matches(Source(loaded)[0], lowered) && !Matches(Source(loaded)[1], lowered)
    ensures GetProjects(loaded, query) == []
  {
    var ps := Source(loaded);
    assert ps == [ps[0], ps[1]];
    FilterPair(ps[0], ps[1], (p: Project) => Matches(p, lowered));
  }

  /** "awesome" occurs in the first default title, at its start. */
  lemma AwesomeInFirstDefault()
    ensures Matches(DefaultProjects[0], "awesome")
  {
    assert "Awesome Game Project" == "Awesome" + " Game Project";
    assert Lower("Awesome") == "awesome";
    LowerAppend("Awesome", " Game Project");
    ContainedAsPrefix("awesome", Lower(" Game Project"));
  }

  /** The two parts of the second default blurb: before "ame." it has no
      `m`, and from there on no `w`. */
  lemma AwesomeNotInBlurbParts(head: string, tail: string)
    requires head == "Explore a vast " + "world in this " + "epic role-" + "playing g"
    requires tail == "ame."
    ensures !Contains(Lower(head + tail), "awesome")
  {
    assert 'm' !in head && 'M' !in head;
    assert 'w' !in tail && 'W' !in tail;
    NotContainedLackingSplit(head, tail, "awesome", 'm', 'w');
  }

  /** Hence "awesome" does not occur in the second default blurb. */
  lemma AwesomeNotInSecondBlurb()
    ensures !Contains(Lower("Explore a vast world in this epic role-playing game."), "awesome")
  {
    assert "Explore a vast world in this epic role-playing game."
        == "Explore a vast " + "world in this " + "epic role-" + "playing g" + "ame.";
    AwesomeNotInBlurbParts("Explore a vast " + "world in this " + "epic role-" + "playing g", "ame.");
  }

  /** "awesome" occurs in neither field of the second default project. */
  lemma AwesomeNotInSecondDefault()
    ensures !Matches(DefaultProjects[1], "awesome")
  {
    NotContainedLacking("Indie RPG Adventure", "awesome", 'w');
    AwesomeNotInSecondBlurb();
  }

  /** With the file missing, "awesome" finds only the first default project. */
  lemma DefaultAwesome()
    ensures GetProjects(None, "awesome") == [DefaultProjects[0]]
  {
    assert Lower("awesome") == "awesome";
    AwesomeInFirstDefault();
    AwesomeNotInSecondDefault();
    SearchPairFirstOnly(None, "awesome", "awesome");
  }

  /** The query is compared case-insensitively: queries equal up to letter
      case select the same records. */
  lemma GetProjectsIgnoresCase(loaded: Option<seq<Project>>, q1: string, q2: string)
    requires Lower(q1) == Lower(q2)
    ensures GetProjects(loaded, q1) == GetProjects(loaded, q2)
  {
    assert |q1| == |Lower(q1)| == |Lower(q2)| == |q2|;
  }

  /** Neither default title has an `x`. */
  lemma NonExistentNotInDefaultTitles()
    ensures !Contains(Lower("Awesome Game Project"), "non-existent")
    ensures !Contains(Lower("Indie RPG Adventure"), "non-existent")
  {
    assert 'x' in "non-existent" && UpperOf('x') == 'X';
    NotContainedLacking("Awesome Game Project", "non-existent", 'x');
    NotContainedLacking("Indie RPG Adventure", "non-existent", 'x');
  }

  /** The first default blurb has no `x`. */
  lemma NonExistentNotInFirstBlurbParts(blurb: string)
    requires blurb == "A revolutionary " + "new game that " + "will change " + "everything."
    ensures !Contains(Lower(blurb), "non-existent")
  {
    assert 'x' in "non-existent" && UpperOf('x') == 'X';
    assert 'x' !in blurb && 'X' !in blurb;
    NotContainedLacking(blurb, "non-existent", 'x');
  }

  /** The second default blurb has no `n` in "Explore a vast " and no `x`
      after it. */
  lemma NonExistentNotInSecondBlurbParts(head: string, tail: string)
    requires head == "Explore a vast "
    requires tail == "world in this " + "epic role-" + "playing game."
    ensures !Contains(Lower(head + tail), "non-existent")
  {
    assert 'n' !in head && 'N' !in head;
    assert 'x' !in tail && 'X' !in tail;
    NotContainedLackingSplit(head, tail, "non-existent", 'n', 'x');
  }

  /** Hence "non-existent" occurs in neither blurb of the default list. */
  lemma NonExistentNotInFirstBlurb()
    ensures !Contains(Lower("A revolutionary new game that will change everything."), "non-existent")
  {
    assert "A revolutionary new game that will change everything."
        == "A revolutionary " + "new game that " + "will change " + "everything.";
    NonExistentNotInFirstBlurbParts("A revolutionary " + "new game that " + "will change " + "everything.");
  }

  lemma NonExistentNotInSecondBlurb()
    ensures !Contains(Lower("Explore a vast world in this epic role-playing game."), "non-existent")
  {
    assert "Explore a vast world in this epic role-playing game."
        == "Explore a vast " + ("world in this " + "epic role-" + "playing game.");
    NonExistentNotInSecondBlurbParts("Explore a vast ", "world in this " + "epic role-" + "playing game.");
  }

  /** With the file missing, "non-existent" finds nothing. */
  lemma DefaultNonExistent()
    ensures GetProjects(None, "non-existent") == []
  {
    assert Lower("non-existent") == "non-existent";
    NonExistentNotInDefaultTitles();
    NonExistentNotInFirstBlurb();
    NonExistentNotInSecondBlurb();
    SearchPairNone(None, "non-existent", "non-existent");
  }

  /** The two records of the test data file. */
  const TestProjects: seq<Project> := [
    Project("Test Project 1", "A test blurb", "http://test.com/1"),
    Project("Another Project", "Another blurb", "http://test.com/2")
  ]

  /** "test" occurs at the start of the first test title. */
  lemma TestInFirstTitle()
    ensures Contains(Lower("Test Project 1"), "test")
  {
    assert "Test Project 1" == "Test" + " Project 1";
    assert Lower("Test") == "test";
    LowerAppend("Test", " Project 1");
    ContainedAsPrefix("test", Lower(" Project 1"));
  }

  /** The second test record has no `s` in either field. */
  lemma TestNotInSecondRecord()
    ensures !Contains(Lower("Another Project"), "test")
    ensures !Contains(Lower("Another blurb"), "test")
  {
    NotContainedLacking("Another Project", "test", 's');
    NotContainedLacking("Another blurb", "test", 's');
  }

  /** On the test data, "test" selects the first record only. */
  lemma TestDataQuery()
    ensures GetProjects(Some(TestProjects), "test") == [TestProjects[0]]
  {
    assert Lower("test") == "test";
    TestInFirstTitle();
    TestNotInSecondRecord();
    SearchPairFirstOnly(Some(TestProjects), "test", "test");
  }
}
