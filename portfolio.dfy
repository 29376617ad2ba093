/** The form record the builder wizard edits (`PortfolioData`). */
module Portfolio {
  import opened Wrappers

  datatype Profile = Profile(name: string, tagline: string, image: string)

  /** A project's optional links; the project form starts them as empty strings. */
  datatype Links = Links(github: Option<string>, live: Option<string>)

  /** One entry of the projects list, and also the shape of the project form. */
  datatype Project = Project(
    id: string,
    title: string,
    description: string,
    techStack: seq<string>,
    links: Links,
    image: string)

  datatype PortfolioData = PortfolioData(
    profile: Profile,
    about: string,
    skills: seq<string>,
    projects: seq<Project>)

  /** The record the builder starts with: every text empty, no skills, no projects. */
  const EmptyPortfolio := PortfolioData(Profile("", "", ""), "", [], [])

  /** The ids of a projects list, in order. */
  function Ids(ps: seq<Project>): (r: seq<string>)
    ensures |r| == |ps| && forall i :: 0 <= i < |ps| ==> r[i] == ps[i].id
  {
    seq(|ps|, i requires 0 <= i < |ps| => ps[i].id)
  }
}
