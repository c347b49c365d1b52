/**
  `GET /api/courses`: the fixed catalogue filtered by an optional free-text
  `search` (a case-insensitive substring of title, description or category)
  and an optional `category` (case-insensitive equality).
 */
module Courses {
  import opened Wrappers
  import opened Strings
  import opened Seqs

  /** A catalogue entry; the rating is kept in tenths (4.8 is 48). */
  datatype Course = Course(
    id: nat,
    title: string,
    description: string,
    category: string,
    duration: string,
    level: string,
    enrolled: nat,
    ratingTenths: nat)

  const Catalogue: seq<Course> := [
    Course(1, "Advanced React Patterns",
      "Master advanced React patterns including render props, compound components, and custom hooks.",
      "Frontend", "6 weeks", "Advanced", 245, 48),
    Course(2, "Machine Learning Fundamentals",
      "Introduction to ML concepts, algorithms, and practical applications with Python.",
      "Data Science", "8 weeks", "Beginner", 380, 46),
    Course(3, "Cloud Architecture with AWS",
      "Design and deploy scalable cloud solutions using Amazon Web Services.",
      "DevOps", "10 weeks", "Intermediate", 160, 47),
    Course(4, "Full-Stack Development Bootcamp",
      "Build complete web applications from frontend to backend with modern technologies.",
      "Full-Stack", "12 weeks", "Intermediate", 520, 49),
    Course(5, "Data Structures & Algorithms",
      "Essential DSA concepts for technical interviews and competitive programming.",
      "Computer Science", "4 weeks", "Intermediate", 890, 45)
  ]

  /** The search test for an already lower-cased query `q`. */
  function MatchesQuery(q: string): Course -> bool
  {
    (c: Course) => Contains(LowerStr(c.title), q) || Contains(LowerStr(c.description), q) || Contains(LowerStr(c.category), q)
  }

  /** The category test: equal ignoring case. */
  function InCategory(category: string): Course -> bool
  {
    (c: Course) => EqualsIgnoreCase(c.category, category)
  }

  /** The search filter, then the category filter, each only when its parameter is given. */
  function Select(courses: seq<Course>, search: Option<string>, category: Option<string>): seq<Course>
  {
    var afterSearch := if Given(search) then Filter(courses, MatchesQuery(LowerStr(search.value))) else courses;
    if Given(category) then Filter(afterSearch, InCategory(category.value)) else afterSearch
  }

  /** The handler applies the filters to the fixed catalogue. */
  function ListCourses(search: Option<string>, category: Option<string>): seq<Course>
  {
    Select(Catalogue, search, category)
  }

  /** A course passes every filter whose parameter is given. */
  predicate Selected(search: Option<string>, category: Option<string>, c: Course)
  {
    && (Given(search) ==> MatchesQuery(LowerStr(search.value))(c))
    && (Given(category) ==> InCategory(category.value)(c))
  }

  function SelectedBy(search: Option<string>, category: Option<string>): Course -> bool
  {
    (c: Course) => Selected(search, category, c)
  }

  /** The two sequential filters are one filter of the catalogue by the conjunction of the given tests. */
  lemma ListCoursesIsFilter(search: Option<string>, category: Option<string>)
    ensures ListCourses(search, category) == Filter(Catalogue, SelectedBy(search, category))
  {
    SelectIsFilter(Catalogue, search, category);
  }

  lemma SelectIsFilter(courses: seq<Course>, search: Option<string>, category: Option<string>)
    ensures Select(courses, search, category) == Filter(courses, SelectedBy(search, category))
  {
    var sel := SelectedBy(search, category);
    if Given(search) {
      var m := MatchesQuery(LowerStr(search.value));
      if Given(category) {
        var k := InCategory(category.value);
        FilterFilterAs(courses, m, k, sel);
      } else {
        FilterExt(courses, m, sel);
      }
    } else if Given(category) {
      FilterExt(courses, InCategory(category.value), sel);
    } else {
      FilterAll(courses, sel);
    }
  }

  /**
    The result keeps catalogue order; every course in it passes the given
    tests (its lower-cased title, description or category contains the
    lower-cased query; its category equals the requested one ignoring case);
    and no catalogue course that passes them is dropped.
   */
  lemma ListCoursesSpec(search: Option<string>, category: Option<string>)
    ensures IsSubseq(ListCourses(search, category), Catalogue)
    ensures forall c :: c in ListCourses(search, category) ==> c in Catalogue && Selected(search, category, c)
    ensures forall i :: 0 <= i < |Catalogue| && Selected(search, category, Catalogue[i]) ==>
      Catalogue[i] in ListCourses(search, category)
  {
    ListCoursesIsFilter(search, category);
    FilterIsSubseq(Catalogue, SelectedBy(search, category));
    var r := ListCourses(search, category);
    forall c | c in r
      ensures c in Catalogue && Selected(search, category, c)
    {
      var k :| 0 <= k < |r| && r[k] == c;
    }
  }

  /** With neither parameter given, the whole catalogue comes back unchanged. */
  lemma UnfilteredIsCatalogue(search: Option<string>, category: Option<string>)
    requires !Given(search) && !Given(category)
    ensures ListCourses(search, category) == Catalogue
  {
  }

  /** Asking for a category is idempotent: filtering the answer again changes nothing. */
  lemma CategoryIdempotent(search: Option<string>, category: string)
    requires category != []
    ensures Filter(ListCourses(search, Some(category)), InCategory(category)) == ListCourses(search, Some(category))
  {
    CategoryIdempotentFor(Catalogue, search, category);
  }

  lemma CategoryIdempotentFor(courses: seq<Course>, search: Option<string>, category: string)
    requires category != []
    ensures Filter(Select(courses, search, Some(category)), InCategory(category)) == Select(courses, search, Some(category))
  {
    var afterSearch := if Given(search) then Filter(courses, MatchesQuery(LowerStr(search.value))) else courses;
    FilterIdempotent(afterSearch, InCategory(category));
  }
}
