/** The projects table and its queries. */
module Projects {
  import opened Wrappers
  import opened Seqs

  /** A text in French and in English. */
  datatype Localized = Localized(fr: string, en: string)

  datatype Category = Web | Mobile | Desktop | DevOps {
    function Name(): string {
      match this
      case Web => "web"
      case Mobile => "mobile"
      case Desktop => "desktop"
      case DevOps => "devops"
    }
  }

  datatype Project = Project(
    id: string,
    title: string,
    description: Localized,
    longDescription: Option<Localized>,
    technologies: seq<string>,
    category: Category,
    image: Option<string>,
    githubUrl: Option<string>,
    demoUrl: Option<string>,
    featured: bool,
    role: Option<Localized>)

  const Jeewago: Project :=
    Project(
      "jeewago", "Jeewago",
      Localized("Site d'analyse HBJO (Horlogerie, Bijouterie, Joaillerie, Orfèvrerie)",
                "HBJO analysis website (Watchmaking, Jewelry, Goldsmithing)"),
      Some(Localized("Développement d'une plateforme web complète pour l'analyse et la gestion de données HBJO. Implémentation d'interfaces utilisateur intuitives et d'un back-end robuste.",
                     "Development of a complete web platform for HBJO data analysis and management. Implementation of intuitive user interfaces and a robust backend.")),
      ["PHP", "SQL", "HTML", "CSS", "JavaScript"],
      Web, None, None, None, true,
      Some(Localized("Développeur Fullstack - Stage", "Fullstack Developer - Internship")))

  const TimeHarmony: Project :=
    Project(
      "timeharmony", "TimeHarmony",
      Localized("Application web de gestion d'agendas et de planification",
                "Web application for calendar management and scheduling"),
      Some(Localized("Application complète de gestion d'agendas avec interface responsive. Fonctionnalités de création d'événements, partage de calendriers et notifications.",
                     "Complete calendar management application with responsive interface. Features event creation, calendar sharing, and notifications.")),
      ["PHP", "HTML", "CSS", "JavaScript", "Bootstrap", "TWIG", "MySQL"],
      Web, None, None, None, true,
      Some(Localized("Développeur principal", "Lead Developer")))

  const AndroidRecipes: Project :=
    Project(
      "android-recipes", "Application Android - Recettes",
      Localized("Application mobile de gestion de plats et recettes",
                "Mobile application for meal and recipe management"),
      Some(Localized("Application Android native permettant de gérer une collection de recettes avec fonctionnalités de recherche, favoris et liste de courses.",
                     "Native Android application for managing a recipe collection with search, favorites, and shopping list features.")),
      ["Java", "SQL", "Android Studio"],
      Mobile, None, None, None, true,
      Some(Localized("Développeur mobile", "Mobile Developer")))

  const SlideshowReader: Project :=
    Project(
      "slideshow-reader", "Lecteur de diaporama",
      Localized("Application logicielle de lecture de diaporamas",
                "Desktop slideshow reader application"),
      Some(Localized("Application desktop développée en C++ avec Qt Creator pour la création et lecture de diaporamas avec transitions animées.",
                     "Desktop application developed in C++ with Qt Creator for creating and playing slideshows with animated transitions.")),
      ["C++", "SQL", "Qt Creator"],
      Desktop, None, None, None, false,
      Some(Localized("Développeur", "Developer")))

  const DockerLaravel: Project :=
    Project(
      "docker-laravel", "Déploiement Docker Laravel",
      Localized("Configuration Docker pour application Laravel avec MySQL",
                "Docker configuration for Laravel application with MySQL"),
      Some(Localized("Mise en place d'une infrastructure Docker complète pour déployer une application Laravel avec base de données MySQL, incluant Dockerfiles optimisés et docker-compose.",
                     "Setup of complete Docker infrastructure for deploying a Laravel application with MySQL database, including optimized Dockerfiles and docker-compose.")),
      ["Docker", "Laravel", "MySQL", "docker-compose"],
      DevOps, None, None, None, false,
      Some(Localized("DevOps", "DevOps")))

  /** `projects`. */
  const AllProjects: seq<Project> := [Jeewago, TimeHarmony, AndroidRecipes, SlideshowReader, DockerLaravel]

  /** No two projects of `projects` share an id. */
  predicate IdsDistinct(projects: seq<Project>) {
    forall i, j :: 0 <= i < j < |projects| ==> projects[i].id != projects[j].id
  }

  /** The ids of the table are pairwise distinct: they already differ in their first letter. */
  lemma ProjectIdsDistinct()
    ensures IdsDistinct(AllProjects)
  {
    assert Jeewago.id[0] == 'j' && TimeHarmony.id[0] == 't' && AndroidRecipes.id[0] == 'a';
    assert SlideshowReader.id[0] == 's' && DockerLaravel.id[0] == 'd';
  }

  /** `getFeaturedProjects()` over the table `projects`: exactly its featured projects, in table order. */
  function GetFeaturedProjects(projects: seq<Project>): (r: seq<Project>)
    ensures forall p :: p in r <==> p in projects && p.featured
    ensures forall p :: multiset(r)[p] == if p.featured then multiset(projects)[p] else 0
    ensures IsSubsequence(r, projects)
  {
    Filter((p: Project) => p.featured, projects)
  }

  /** `getProjectsByCategory(category)`: exactly the projects of that category, in table order. */
  function GetProjectsByCategory(projects: seq<Project>, category: Category): (r: seq<Project>)
    ensures forall p :: p in r <==> p in projects && p.category == category
    ensures forall p :: multiset(r)[p] == if p.category == category then multiset(projects)[p] else 0
    ensures IsSubsequence(r, projects)
  {
    Filter((p: Project) => p.category == category, projects)
  }

  /** `getProjectById(id)`: the first project with that id, None (`undefined`) when there is none. */
  function GetProjectById(projects: seq<Project>, id: string): (r: Option<Project>)
    ensures r.None? <==> forall p :: p in projects ==> p.id != id
    ensures r.Some? ==>
      exists i :: 0 <= i < |projects| && projects[i] == r.value && r.value.id == id &&
                  forall j :: 0 <= j < i ==> projects[j].id != id
  {
    Find((p: Project) => p.id == id, projects)
  }

  /** When ids are distinct, the lookup by id finds the one project that has it. */
  lemma LookupFindsTheProject(projects: seq<Project>, p: Project)
    requires IdsDistinct(projects) && p in projects
    ensures GetProjectById(projects, p.id) == Some(p)
  {
  }

  /** `projects.map((project) => project.category)`. */
  function CategoryColumn(ps: seq<Project>): (r: seq<Category>)
    ensures |r| == |ps| && forall i :: 0 <= i < |ps| ==> r[i] == ps[i].category
  {
    if ps == [] then [] else [ps[0].category] + CategoryColumn(ps[1..])
  }

  /**
   * `getAllCategories()`: every category some project has, once each, in the order of
   * first appearance in the table.
   */
  function GetAllCategories(projects: seq<Project>): (r: seq<Category>)
    ensures NoDuplicates(r)
    ensures forall c :: c in r <==> c in CategoryColumn(projects)
    ensures forall c :: c in r <==> exists p :: p in projects && p.category == c
    ensures forall i, j :: 0 <= i < j < |r| ==>
      IndexOf(CategoryColumn(projects), r[i]) < IndexOf(CategoryColumn(projects), r[j])
  {
    var column := CategoryColumn(projects);
    DedupeFirstOccurrenceOrder(column);
    assert forall c :: c in column <==> exists p :: p in projects && p.category == c by {
      forall c | c in column ensures exists p :: p in projects && p.category == c {
        var i :| 0 <= i < |column| && column[i] == c;
        assert projects[i] in projects;
      }
    }
    Dedupe(column)
  }
}
