/**
 * The static portfolio record the assistant's replies are built from
 * (`portfolioInfo`). It is never changed at run time.
 */
module Portfolio {
  import opened Wrappers

  datatype Project = Project(
    name: string,
    description: string,
    techStack: seq<string>,
    liveUrl: string,
    codeUrl: string,
    challengesSolved: string)

  datatype Experience = Experience(
    company: string,
    role: string,
    period: string,
    achievements: seq<string>)

  datatype Skills = Skills(frontend: seq<string>, backend: seq<string>, devops: seq<string>)

  datatype Profile = Profile(
    name: string,
    role: string,
    location: string,
    education: string,
    email: string,
    linkedin: string,
    github: string,
    website: string,
    funFact: string,
    skills: Skills,
    projects: seq<Project>,
    experience: seq<Experience>,
    interests: seq<string>,
    about: string)

  const PORTFOLIO_INFO: Profile := Profile(
    "Nishant Singh Ujjwal",
    "Software Engineer / Web Developer",
    "Nashik, Maharashtra, India",
    "Computer Science",
    "nishantujjwal2000@gmail.com",
    "www.linkedin.com/in/nishant-ujjwal",
    "github.com/nishantujjwal",
    "nishantujjwal.dev",
    "am self-motivated and detail-oriented",
    Skills(
      ["React.js", "Next.js", "JavaScript", "TypeScript", "Tailwind CSS"],
      ["Node.js", "MongoDB", "PostgreSQL"],
      ["Git"]),
    [
      Project(
        "Portfolio Website",
        "A modern web portfolio showcasing skills and projects with interactive features",
        ["Next.js", "TypeScript", "Tailwind CSS"],
        "https://nishantujjwal.dev",
        "https://github.com/nishantujjwal/portfolio",
        "Implemented an AI-like chat interface that helps visitors navigate the portfolio and learn about my skills and experience."),
      Project(
        "Project Dashboard",
        "A comprehensive dashboard for tracking project metrics and performance",
        ["React.js", "Node.js", "MongoDB"],
        "https://dashboard.example.com",
        "https://github.com/nishantujjwal/dashboard",
        "Created responsive visualizations that work across all devices while maintaining performance."),
      Project(
        "Task Management App",
        "A cross-platform task management solution with real-time updates",
        ["React.js", "Node.js", "PostgreSQL"],
        "https://tasks.example.com",
        "https://github.com/nishantujjwal/tasks",
        "Built a robust offline-first architecture that syncs when connectivity is restored.")
    ],
    [
      Experience(
        "Dynamic Tech Company",
        "Full Stack Developer",
        "2023-Present",
        ["Developed and maintained complex web applications", "Reduced API response time by 40%", "Collaborated with team members to deliver high-quality solutions"])
    ],
    ["Open source contribution", "Web development", "Continuous learning", "Staying current with industry trends"],
    "Self-motivated and detail-oriented Full Stack Software Developer with over three years of experience in web development, including one year of professional experience in a dynamic company environment. Proficient in React.js and Node.js, with a strong foundation in both frontend and backend technologies. Adept at designing, developing, and maintaining complex web applications, and committed to continuous learning and staying current with industry trends.")

  /** `projects.find(p => p.name === name)`: the first project with that name, if any. */
  function FindProject(projects: seq<Project>, name: string): (r: Option<Project>)
    ensures r.None? <==> forall i :: 0 <= i < |projects| ==> projects[i].name != name
    ensures r.Some? ==> r.value.name == name
    ensures r.Some? ==>
      exists i :: 0 <= i < |projects| && projects[i] == r.value && forall j :: 0 <= j < i ==> projects[j].name != name
  {
    if projects == [] then None
    else if projects[0].name == name then Some(projects[0])
    else
      var r := FindProject(projects[1..], name);
      assert r.Some? ==>
        exists i :: 1 <= i < |projects| && projects[i] == r.value && forall j :: 0 <= j < i ==> projects[j].name != name
      by {
        if r.Some? {
          var i :| 0 <= i < |projects[1..]| && projects[1..][i] == r.value
            && forall j :: 0 <= j < i ==> projects[1..][j].name != name;
          assert projects[i + 1] == r.value;
          assert forall j :: 1 <= j < i + 1 ==> projects[j].name == projects[1..][j - 1].name;
        }
      }
      r
  }

  /** The project the `portfolio` subtopic looks up is present, so the source's non-null assertion holds. */
  lemma PortfolioWebsiteFound()
    ensures FindProject(PORTFOLIO_INFO.projects, "Portfolio Website") == Some(PORTFOLIO_INFO.projects[0])
  {
  }
}
