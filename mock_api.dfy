/**
  The content provider: the record types the views consume, the fixed fixture collections and
  the five `api` getters. The getters resolve after a fixed delay in the source; the delay is not
  modelled, so each getter is the constant collection it resolves with.
*/
module MockApi {
  import opened Wrappers

  /** The closed set of media kinds a process step can show. */
  datatype MediaType = Image | YouTube | Pdf | Gif

  datatype ProcessMedia = ProcessMedia(kind: MediaType, src: string, alt: Option<string>)

  datatype Link = Link(title: string, url: string)

  /** A stage of a project; `id` is its 1-based position. */
  datatype ProcessStep = ProcessStep(id: int, title: string, media: seq<ProcessMedia>, summary: string, links: seq<Link>)

  datatype ProjectLinks = ProjectLinks(demo: Option<string>, repo: string)

  datatype Project = Project(id: string, title: string, description: string, tags: seq<string>,
                             stages: seq<ProcessStep>, links: ProjectLinks)

  datatype Process = Process(steps: seq<ProcessStep>)

  datatype Repository = Repository(id: string, title: string, codeGif: string, resultGif: string, repoUrl: string)

  datatype TeamLinks = TeamLinks(github: Option<string>, mail: Option<string>)

  datatype TeamMember = TeamMember(name: string, role: string, avatar: string, skills: seq<string>, links: TeamLinks)

  /** An entry of a company section; `id` is its 1-based position. */
  datatype CompanyItem = CompanyItem(id: int, title: string, description: string, image: Option<string>,
                                     details: Option<seq<string>>)

  datatype CompanySection = CompanySection(id: string, title: string, description: string, items: seq<CompanyItem>)

  /** `mockProjects`. */
  const MockProjects: seq<Project> := [
    Project(
      "1", "Videojuego VR - Warren House",
      "Experiencia de terror en realidad virtual ambientada en la misteriosa mansión Warren.",
      ["Unity", "VR", "C#", "Horror"],
      [
        ProcessStep(
          1, "Propuesta inicial",
          [
            ProcessMedia(Pdf, "https://drive.google.com/file/d/1NNFOFcSFLDV00SN5O8FN673S_p0sTojd/view?usp=sharing", Some("Propuesta Inicial - Warren House"))
          ],
          "Documento de propuesta inicial del proyecto Warren House, incluyendo conceptualización, objetivos y alcance del videojuego de terror en VR.",
          []),
        ProcessStep(
          2, "Boceto",
          [
            ProcessMedia(Pdf, "https://drive.google.com/file/d/1OgHrZMvAJ1FZPfgEbd1psfvie6t5vJxe/view?usp=sharing", Some("Boceto - Warren House"))
          ],
          "Bocetos y diseños conceptuales iniciales del proyecto, incluyendo el mapa del departamento y las mecánicas principales del juego.",
          []),
        ProcessStep(
          3, "Maqueta",
          [
            ProcessMedia(Pdf, "https://drive.google.com/file/d/1DKnz0bCUsOvLm-h3NLrHOWydVCm3FKBQ/view?usp=sharing", Some("Maqueta - Warren House"))
          ],
          "Maqueta física a escala del entorno de juego para validar el diseño espacial y la navegación del jugador.",
          []),
        ProcessStep(
          4, "Escenificación",
          [
            ProcessMedia(Pdf, "https://drive.google.com/file/d/1S2TJ1dPvIcrqDHMZjNNaY9SbvklYAqOn/view?usp=sharing", Some("Escenificación - Warren House"))
          ],
          "Documentación del proceso de escenificación y pruebas físicas con objetos reales para validar las mecánicas del juego.",
          []),
        ProcessStep(
          5, "Producto final",
          [
            ProcessMedia(YouTube, "https://youtu.be/A6aRkhlqWuE", Some("Warren House - Producto Final"))
          ],
          "Demostración completa del videojuego Warren House en realidad virtual, mostrando todas las mecánicas implementadas y la experiencia de juego final.",
          [])
      ],
      ProjectLinks(Some("https://demo.warren-house.com"), "https://github.com/example/warren-house-vr")),
    Project(
      "2", "Videojuego Colaborativo - Blandy",
      "Juego colaborativo multijugador con mecánicas de cooperación y resolución de puzzles.",
      ["Roblox", "Multiplayer", "Networking"],
      [
        ProcessStep(
          1, "Propuesta inicial",
          [
            ProcessMedia(Pdf, "https://drive.google.com/file/d/1EvSqAHVynWvcbTCquyBCzQvqLhVUs-p5/view?usp=sharing", Some("Propuesta Inicial - Blandy"))
          ],
          "Documento de propuesta inicial del proyecto Blandy, definiendo el concepto del juego colaborativo, mecánicas principales y objetivos del proyecto.",
          []),
        ProcessStep(
          2, "Boceto",
          [
            ProcessMedia(Pdf, "https://drive.google.com/file/d/1DdnXupcha84BhZ03yH14VjSPsnSHwPAV/view?usp=sharing", Some("Boceto - Blandy"))
          ],
          "Bocetos conceptuales del juego, incluyendo diseño de personajes, niveles y mecánicas de colaboración entre jugadores.",
          []),
        ProcessStep(
          3, "Personas",
          [
            ProcessMedia(Pdf, "https://drive.google.com/file/d/1vTBpDgTWWLqvClOY6SRvp_fW7TNgyMHK/view?usp=sharing", Some("Personas - Blandy"))
          ],
          "Definición de personas y perfiles de usuarios objetivo para el juego, incluyendo sus necesidades, motivaciones y comportamientos esperados.",
          []),
        ProcessStep(
          4, "Tareas",
          [
            ProcessMedia(Pdf, "https://drive.google.com/file/d/1Xxnczp67R7DeETowkRQYL736pvWBCpqS/view?usp=sharing", Some("Tareas - Blandy"))
          ],
          "Análisis de tareas y flujos de juego, documentando las acciones principales que los jugadores realizan y cómo interactúan entre sí.",
          []),
        ProcessStep(
          5, "Eval. Usuarios",
          [
            ProcessMedia(YouTube, "https://www.youtube.com/watch?v=TU_VIDEO_ID_EVAL_BLANDY", Some("Evaluación de Usuarios - Blandy"))
          ],
          "Video documentando las pruebas de usuario y evaluación de la experiencia de juego, incluyendo feedback y observaciones de jugadores reales.",
          []),
        ProcessStep(
          6, "Producto final",
          [
            ProcessMedia(YouTube, "https://www.youtube.com/watch?v=TU_VIDEO_ID_FINAL_BLANDY", Some("Blandy - Producto Final"))
          ],
          "Demostración completa del videojuego Blandy, mostrando las mecánicas colaborativas, el sistema multijugador y la experiencia de juego final.",
          [])
      ],
      ProjectLinks(Some("https://demo.blandy.com"), "https://github.com/example/blandy-game"))
  ]

  /** `mockProcess`. */
  const MockProcess: Process := Process([
    ProcessStep(
      1, "Bosquejos (low-fi)",
      [
        ProcessMedia(Image, "/process/bocetos.jpg", None),
        ProcessMedia(Image, "/process/bocetos2.jpeg", None),
        ProcessMedia(Image, "/process/bocetos3.jpeg", None),
        ProcessMedia(Image, "/process/bocetos4.jpeg", None),
        ProcessMedia(Image, "/process/bocetos5.jpeg", None)
      ],
      "Bocetos en papel, mapa del departamento y reglas básicas del juego.",
      []),
    ProcessStep(
      2, "Escenificación (role-play)",
      [
        ProcessMedia(Image, "/process/escena2.jpeg", None),
        ProcessMedia(Image, "/process/escena.jpg", None),
        ProcessMedia(Image, "/process/escena3.jpeg", None),
        ProcessMedia(Image, "/process/escena4.jpeg", None),
        ProcessMedia(Image, "/process/escena5.jpeg", None)
      ],
      "Ensayo con objetos reales (linterna, crucifijo y biblia) para validar mecánicas base.",
      []),
    ProcessStep(
      3, "Maqueta interactiva",
      [
        ProcessMedia(Image, "/process/maqueta.jpg", None),
        ProcessMedia(Image, "/process/maqueta2.jpeg", None)
      ],
      "Prototipo a escala: control del personaje y navegación por todo el entorno.",
      [])
  ])

  /** `mockCompanySections`. */
  const MockCompanySections: seq<CompanySection> := [
    CompanySection(
      "1", "Objetivos",
      "Las metas principales que buscamos alcanzar como organización.",
      [
        CompanyItem(
          1, "Innovación Constante",
          "Desarrollar soluciones tecnológicas innovadoras que transformen la industria del gaming y la realidad virtual, manteniéndonos siempre a la vanguardia de las nuevas tecnologías.",
          Some("/process/escena2.jpeg"),
          Some(["Implementar las últimas tecnologías en VR y AR", "Crear experiencias inmersivas únicas", "Investigación y desarrollo continuo"])),
        CompanyItem(
          2, "Excelencia en Desarrollo",
          "Crear productos de alta calidad que superen las expectativas de nuestros usuarios, enfocándonos en la optimización, rendimiento y experiencia de usuario.",
          Some("/process/escena.jpg"),
          Some(["Código limpio y mantenible", "Testing exhaustivo", "Optimización de rendimiento", "Mejora continua de procesos"])),
        CompanyItem(
          3, "Impacto Social",
          "Generar un impacto positivo en la comunidad a través de nuestros proyectos, promoviendo la educación tecnológica y el acceso a experiencias de realidad virtual.",
          Some("/process/escena.jpg"),
          Some(["Programas educativos de VR", "Accesibilidad en tecnología", "Colaboración con instituciones educativas"]))
      ]),
    CompanySection(
      "2", "Meta",
      "Nuestra visión a largo plazo y lo que aspiramos ser.",
      [
        CompanyItem(
          1, "Liderazgo en VR",
          "Convertirnos en líderes reconocidos en el desarrollo de experiencias de realidad virtual en América Latina, estableciendo nuevos estándares de calidad e innovación.",
          Some("/process/escena.jpg"),
          Some(["Presencia en mercados internacionales", "Reconocimiento por innovación", "Portafolio diversificado de productos VR"])),
        CompanyItem(
          2, "Expansión Tecnológica",
          "Ampliar nuestras capacidades tecnológicas hacia nuevas plataformas y dispositivos, explorando las posibilidades de la realidad aumentada, mixta y otras tecnologías emergentes.",
          Some("/process/escena.jpg"),
          Some(["Desarrollo multiplataforma", "Integración con dispositivos IoT", "Exploración de metaverso"])),
        CompanyItem(
          3, "Equipo de Clase Mundial",
          "Construir y mantener un equipo de profesionales altamente capacitados y apasionados, creando un ambiente de trabajo que fomente la creatividad y el crecimiento profesional.",
          Some("/process/escena.jpg"),
          Some(["Programa de capacitación continua", "Cultura de innovación", "Ambiente colaborativo", "Desarrollo de talento interno"]))
      ]),
    CompanySection(
      "3", "Valores",
      "Los principios fundamentales que guían nuestras acciones y decisiones.",
      [
        CompanyItem(
          1, "Integridad",
          "Actuamos con honestidad y transparencia en todas nuestras interacciones, manteniendo los más altos estándares éticos en cada proyecto y decisión que tomamos.",
          Some("/process/escena.jpg"),
          Some(["Transparencia en comunicación", "Cumplimiento de compromisos", "Ética profesional", "Responsabilidad en decisiones"])),
        CompanyItem(
          2, "Innovación",
          "Fomentamos la creatividad y el pensamiento disruptivo, buscando constantemente nuevas formas de resolver problemas y mejorar nuestros productos y procesos.",
          Some("/process/escena.jpg"),
          Some(["Experimentación continua", "Apertura a nuevas ideas", "Cultura de aprendizaje", "Adaptación al cambio"])),
        CompanyItem(
          3, "Colaboración",
          "Creemos en el poder del trabajo en equipo y la sinergia entre diferentes disciplinas, promoviendo un ambiente donde todos los miembros contribuyen al éxito común.",
          Some("/process/escena.jpg"),
          Some(["Trabajo interdisciplinario", "Comunicación abierta", "Respeto mutuo", "Compartir conocimientos"])),
        CompanyItem(
          4, "Excelencia",
          "Nos comprometemos a entregar productos y servicios de la más alta calidad, superando expectativas y estableciendo nuevos estándares en la industria.",
          Some("/process/escena.jpg"),
          Some(["Atención al detalle", "Mejora continua", "Superación de expectativas", "Calidad sobre cantidad"])),
        CompanyItem(
          5, "Pasión",
          "Amamos lo que hacemos y ponemos corazón en cada proyecto, manteniendo el entusiasmo y la dedicación que nos impulsa a crear experiencias extraordinarias.",
          Some("/process/escena.jpg"),
          Some(["Compromiso con proyectos", "Entusiasmo contagioso", "Dedicación extra", "Orgullo por el trabajo"]))
      ])
  ]

  /** `mockRepos`. */
  const MockRepos: seq<Repository> := [
    Repository("1", "React Dashboard", "/placeholder.svg", "/placeholder.svg", "https://github.com/example/react-dashboard"),
    Repository("2", "API REST Node.js", "/placeholder.svg", "/placeholder.svg", "https://github.com/example/nodejs-api"),
    Repository("3", "Mobile App Flutter", "/placeholder.svg", "/placeholder.svg", "https://github.com/example/flutter-app"),
    Repository("4", "ML Data Pipeline", "/placeholder.svg", "/placeholder.svg", "https://github.com/example/ml-pipeline")
  ]

  /** `mockTeam`; each avatar is the path of the imported asset. */
  const MockTeam: seq<TeamMember> := [
    TeamMember("Leonardo Gaona Briceño", "Game Developer", "@/assets/perfil1.png", ["C#", "Unity", "C++"], TeamLinks(Some("https://github.com/LeonardoGB29"), Some("mailto:lgaonab@unsa.edu.pe"))),
    TeamMember("Giomar Muñoz Curi", "Full Stack Developer", "@/assets/perfil2.jpeg", ["React", "Unity", "TypeScript"], TeamLinks(Some("https://github.com/GiomarMC"), Some("mailto:gmunozcu@unsa.edu.pe"))),
    TeamMember("Joselyn Quispe Huanca", "QA & Testing", "@/assets/perfil3.jpg", ["React", "TypeScript", "CSS"], TeamLinks(Some("https://github.com/SabinaPia"), Some("mailto:joquispehua@unsa.edu.pe"))),
    TeamMember("Kristopher Rospigliosi Gonzales", "Interactive Developer", "@/assets/perfil4.jpg", ["TypeScript", "C#", "C++"], TeamLinks(Some("https://github.com/krospigliosig"), Some("mailto:krospigliosig@unsa.edu.pe")))
  ]

  // ---- What the views rely on without checking it ----

  /** The stage ids are 1, 2, ..., n in list order. */
  predicate StagesNumbered(stages: seq<ProcessStep>) {
    forall i :: 0 <= i < |stages| ==> stages[i].id == i + 1
  }

  /** The item ids are 1, 2, ..., n in list order. */
  predicate ItemsNumbered(items: seq<CompanyItem>) {
    forall i :: 0 <= i < |items| ==> items[i].id == i + 1
  }

  predicate ProjectIdsUnique(ps: seq<Project>) {
    forall i, j :: 0 <= i < j < |ps| ==> ps[i].id != ps[j].id
  }

  predicate SectionIdsUnique(ss: seq<CompanySection>) {
    forall i, j :: 0 <= i < j < |ss| ==> ss[i].id != ss[j].id
  }

  /** Unique project ids, and every project has stages numbered from 1 (so stage 1 exists). */
  predicate WellFormedProjects(ps: seq<Project>) {
    && ProjectIdsUnique(ps)
    && forall p :: p in ps ==> |p.stages| > 0 && StagesNumbered(p.stages)
  }

  /** Unique section ids, and every section has items numbered from 1 (so item 1 exists). */
  predicate WellFormedSections(ss: seq<CompanySection>) {
    && SectionIdsUnique(ss)
    && forall s :: s in ss ==> |s.items| > 0 && ItemsNumbered(s.items)
  }

  lemma MockProjectsWellFormed()
    ensures WellFormedProjects(MockProjects)
  {
  }

  lemma MockCompanySectionsWellFormed()
    ensures WellFormedSections(MockCompanySections)
  {
    var ss := MockCompanySections;
    assert ItemsNumbered(ss[0].items) && ItemsNumbered(ss[1].items) && ItemsNumbered(ss[2].items);
    forall s | s in ss ensures |s.items| > 0 && ItemsNumbered(s.items) {
      assert s == ss[0] || s == ss[1] || s == ss[2];
    }
  }

  // ---- The api getters ----

  /** `api.getProjects`: the project fixtures, which satisfy the selection logic's assumptions. */
  function GetProjects(): (r: seq<Project>)
    ensures WellFormedProjects(r)
    ensures |r| == 2 && r[0].id == "1" && r[1].id == "2"
  {
    MockProjectsWellFormed();
    MockProjects
  }

  /** `api.getProcess`: three steps numbered 1..3. */
  function GetProcess(): (r: Process)
    ensures |r.steps| == 3 && StagesNumbered(r.steps)
  {
    MockProcess
  }

  /** `api.getRepositories`. */
  function GetRepositories(): (r: seq<Repository>)
    ensures |r| == 4 && forall i :: 0 <= i < |r| ==> r[i].codeGif == r[i].resultGif == "/placeholder.svg"
  {
    MockRepos
  }

  /** `api.getTeam`. */
  function GetTeam(): (r: seq<TeamMember>)
    ensures |r| == 4 && forall m :: m in r ==> m.links.github.Some? && m.links.mail.Some?
  {
    MockTeam
  }

  /** `api.getCompanySections`: the section fixtures, which satisfy the selection logic's assumptions. */
  function GetCompanySections(): (r: seq<CompanySection>)
    ensures WellFormedSections(r)
    ensures |r| == 3 && r[0].id == "1" && r[1].id == "2" && r[2].id == "3"
  {
    MockCompanySectionsWellFormed();
    MockCompanySections
  }
}
