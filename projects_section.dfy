/**
 * The selection logic of the projects section: which projects the active filter shows, the
 * filter buttons, the technology badges of a card and the locale a card's texts are taken in.
 */
module ProjectsSection {
  import opened Wrappers
  import opened Seqs
  import opened Projects

  /** The filter value that shows every project; it is the initial state of `activeFilter`. */
  const AllFilter: string := "all"

  /** No category is named like the "all" filter. */
  lemma AllIsNoCategory(c: Category)
    ensures c.Name() != AllFilter
  {
    assert c.Name()[0] != 'a';
  }

  /** Different categories have different names. */
  lemma CategoryNamesDistinct(c: Category, d: Category)
    ensures c.Name() == d.Name() <==> c == d
  {
    if c != d {
      assert c.Name()[0] != d.Name()[0] || |c.Name()| != |d.Name()|;
    }
  }

  /** The projects whose category is named `name`, in table order. */
  function WithCategoryName(projects: seq<Project>, name: string): seq<Project> {
    Filter((p: Project) => p.category.Name() == name, projects)
  }

  /** A category's name is not "all", and filtering by it is `getProjectsByCategory` of that category. */
  lemma CategoryNameFilter(projects: seq<Project>, name: string)
    ensures forall c: Category :: name == c.Name() ==>
      name != AllFilter && WithCategoryName(projects, name) == GetProjectsByCategory(projects, c)
  {
    var p := (p: Project) => p.category.Name() == name;
    forall c: Category | name == c.Name()
      ensures name != AllFilter && WithCategoryName(projects, name) == GetProjectsByCategory(projects, c)
    {
      AllIsNoCategory(c);
      forall x: Project ensures p(x) == (x.category == c) {
        CategoryNamesDistinct(x.category, c);
      }
      FilterCongruent(p, (x: Project) => x.category == c, projects);
    }
  }

  /**
   * `filteredProjects`: the filter "all" shows the table as it is; the filter of category `c`
   * shows what `getProjectsByCategory(c)` returns; any other value shows nothing.
   */
  function FilteredProjects(projects: seq<Project>, activeFilter: string): (r: seq<Project>)
    ensures activeFilter == AllFilter ==> r == projects
    ensures forall c: Category :: activeFilter == c.Name() ==> r == GetProjectsByCategory(projects, c)
    ensures (activeFilter != AllFilter && forall c: Category :: activeFilter != c.Name()) ==> r == []
  {
    CategoryNameFilter(projects, activeFilter);
    if activeFilter == AllFilter then projects
    else WithCategoryName(projects, activeFilter)
  }

  /** The "noProjects" message shows exactly when no project matches the active filter. */
  function ShowsNoProjects(projects: seq<Project>, activeFilter: string): (r: bool)
    ensures r <==> (activeFilter == AllFilter && projects == []) ||
                   (activeFilter != AllFilter && forall p :: p in projects ==> p.category.Name() != activeFilter)
  {
    |FilteredProjects(projects, activeFilter)| == 0
  }

  /** The names of `cs`, in order. */
  function CategoryNames(cs: seq<Category>): (r: seq<string>)
    ensures |r| == |cs| && forall i :: 0 <= i < |cs| ==> r[i] == cs[i].Name()
  {
    if cs == [] then [] else [cs[0].Name()] + CategoryNames(cs[1..])
  }

  /**
   * The filter buttons for the categories `cs`, as the values they set: "all" first, then one
   * per category, in order.
   */
  function FilterKeys(cs: seq<Category>): (r: seq<string>)
    ensures |r| == 1 + |cs| && r[0] == AllFilter
    ensures forall i :: 0 <= i < |cs| ==> r[i + 1] == cs[i].Name()
  {
    [AllFilter] + CategoryNames(cs)
  }

  /** No filter value appears twice when no category repeats. */
  lemma FilterKeysDistinct(cs: seq<Category>)
    requires NoDuplicates(cs)
    ensures NoDuplicates(FilterKeys(cs))
  {
    var r := FilterKeys(cs);
    forall i, j | 0 <= i < j < |r| ensures r[i] != r[j] {
      if i == 0 {
        AllIsNoCategory(cs[j - 1]);
      } else {
        CategoryNamesDistinct(cs[i - 1], cs[j - 1]);
      }
    }
  }

  /** The filter values are "all" and the names of the categories `cs`, and nothing else. */
  lemma FilterKeysMembers(cs: seq<Category>)
    ensures forall key :: key in FilterKeys(cs) <==> key == AllFilter || exists c :: c in cs && c.Name() == key
  {
    var r := FilterKeys(cs);
    forall key | key in r && key != AllFilter ensures exists c :: c in cs && c.Name() == key {
      var k :| 0 < k < |r| && r[k] == key;
      assert cs[k - 1] in cs;
    }
    forall c | c in cs ensures c.Name() in r {
      var k :| 0 <= k < |cs| && cs[k] == c;
      assert r[k + 1] == c.Name();
    }
  }

  /** The buttons the section renders: "all", then `getAllCategories()`, no value twice. */
  function FilterButtons(projects: seq<Project>): (r: seq<string>)
    ensures |r| == 1 + |GetAllCategories(projects)| && r[0] == AllFilter
    ensures forall i :: 0 <= i < |GetAllCategories(projects)| ==> r[i + 1] == GetAllCategories(projects)[i].Name()
    ensures NoDuplicates(r)
    ensures forall key :: key in r <==> key == AllFilter || exists p :: p in projects && p.category.Name() == key
  {
    var cs := GetAllCategories(projects);
    FilterKeysDistinct(cs);
    FilterKeysMembers(cs);
    FilterKeys(cs)
  }

  /**
   * Over a non-empty table every filter button shows at least one project, so "noProjects"
   * never shows after a click.
   */
  lemma EveryFilterShowsProjects(projects: seq<Project>, key: string)
    requires projects != [] && key in FilterButtons(projects)
    ensures !ShowsNoProjects(projects, key)
  {
  }

  /** `technologies.slice(0, 5)`: the first five technologies, or all of them when there are fewer. */
  function VisibleTechnologies(technologies: seq<string>): (r: seq<string>)
    ensures |r| <= 5 && r <= technologies
    ensures |technologies| <= 5 ==> r == technologies
    ensures |technologies| > 5 ==> r == technologies[..5]
  {
    if |technologies| <= 5 then technologies else technologies[..5]
  }

  /** The "+n" badge: shown exactly when there are more than five technologies, counting those not shown. */
  function OverflowBadge(technologies: seq<string>): (r: Option<nat>)
    ensures r.Some? <==> |technologies| > 5
    ensures r.Some? ==> r.value > 0 && r.value == |technologies| - 5
  {
    if |technologies| > 5 then Some(|technologies| - 5) else None
  }

  /** Every technology is either shown as a badge or counted by the overflow badge, never both. */
  lemma BadgesCountEveryTechnology(technologies: seq<string>)
    ensures |VisibleTechnologies(technologies)| + (match OverflowBadge(technologies) case Some(n) => n case None => 0) == |technologies|
    ensures technologies == VisibleTechnologies(technologies) + technologies[|VisibleTechnologies(technologies)|..]
  {
  }

  /** A card's text in its locale (the description, and the role when there is one): English exactly for the locale "en", French for every other one. */
  function Localize(text: Localized, locale: string): (r: string)
    ensures locale == "en" ==> r == text.en
    ensures locale != "en" ==> r == text.fr
  {
    if locale == "en" then text.en else text.fr
  }

  /** The role shown on a project card: none when the project has none, otherwise localised like the description. */
  function CardRole(p: Project, locale: string): (r: Option<string>)
    ensures r.None? <==> p.role.None?
    ensures r.Some? ==> r.value == Localize(p.role.value, locale)
  {
    match p.role
    case None => None
    case Some(role) => Some(Localize(role, locale))
  }
}
