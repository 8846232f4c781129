/** The project records the detail pages read: each project's id, title,
    period, category, screenshot paths, technical details and, for the client
    websites entry, its live links. Descriptions, features and the other
    presentational fields are not part of this model. */
module Catalogue {
  import opened JsText

  datatype TechDetails = TechDetails(
    architecture: string,
    database: Option<string>,
    deployment: Option<string>,
    testing: Option<string>)

  datatype LiveLink = LiveLink(name: string, url: string, description: string)

  datatype Project = Project(
    id: int,
    title: string,
    period: string,
    category: string,
    images: seq<string>,
    techDetails: TechDetails,
    liveLinks: Option<seq<LiveLink>>)

  const ShadowCloak: Project := Project(
    id := 1,
    title := "ShadowCloak",
    period := "2024 \U{2013} Present",
    category := "Cybersecurity",
    images := [
      "/images/shadowcloak-1.jpg",
      "/images/shadowcloak-2.jpg",
      "/images/shadowcloak-3.jpg"
    ],
    techDetails := TechDetails(
      architecture := "Modular Python-based architecture with shell script automation",
      database := None,
      deployment := Some("Docker containers with Kubernetes orchestration"),
      testing := Some("Comprehensive security testing with penetration testing protocols")),
    liveLinks := None)

  const ShadowVeil: Project := Project(
    id := 2,
    title := "ShadowVeil",
    period := "2023 \U{2013} 2024",
    category := "Cybersecurity",
    images := [
      "/images/shadowveil-1.jpg",
      "/images/shadowveil-2.jpg",
      "/images/shadowveil-3.jpg"
    ],
    techDetails := TechDetails(
      architecture := "Microservices architecture with event-driven processing",
      database := Some("MongoDB for threat intelligence, Redis for real-time caching"),
      deployment := Some("Kubernetes with auto-scaling capabilities"),
      testing := Some("Automated testing with simulated attack scenarios")),
    liveLinks := None)

  const BrainTumorDetection: Project := Project(
    id := 3,
    title := "Brain Tumor Detection",
    period := "2024",
    category := "AI & ML",
    images := [
      "/images/brain-tumor.jpeg",
      "/images/trumor-detection.webp",
      "/images/tumor-detection-ai.jpg"
    ],
    techDetails := TechDetails(
      architecture := "CNN with ResNet-50 backbone and custom classification layers",
      database := Some("Secure medical image database with encryption"),
      deployment := Some("Docker containers with GPU acceleration support"),
      testing := Some("Cross-validation with multiple medical datasets")),
    liveLinks := None)

  const FaceRecognitionSystem: Project := Project(
    id := 4,
    title := "Face Recognition System",
    period := "2024",
    category := "AI & ML",
    images := [
      "/images/face-recognition-1024x630.jpg",
      "/images/face-detection.webp",
      "/images/face-recognition-system.jpg"
    ],
    techDetails := TechDetails(
      architecture := "OpenCV-based pipeline with FaceNet embeddings",
      database := Some("SQLite for face encodings with encryption"),
      deployment := Some("Standalone application with API endpoints"),
      testing := Some("Extensive testing with diverse facial datasets")),
    liveLinks := None)

  const HandTrackingProject: Project := Project(
    id := 5,
    title := "Hand Tracking Project",
    period := "2024",
    category := "AI & ML",
    images := [
      "/images/handtrack.jpeg",
      "/images/handtrack-1.jpeg",
      "/images/hand-tracking-demo.jpg"
    ],
    techDetails := TechDetails(
      architecture := "MediaPipe Hands solution with OpenCV for video processing",
      database := None,
      deployment := Some("Cross-platform application with Python and web interfaces"),
      testing := Some("Extensive testing with diverse hand gestures and lighting conditions")),
    liveLinks := None)

  const MalwareUrlDetection: Project := Project(
    id := 6,
    title := "Malware URL Detection",
    period := "2023 \U{2013} 2024",
    category := "AI & ML",
    images := [
      "/images/malware-detection.jpg",
      "/images/malware-detection.webp",
      "/images/url-security.jpg"
    ],
    techDetails := TechDetails(
      architecture := "Ensemble learning with Random Forest and SVM",
      database := Some("PostgreSQL for threat intelligence storage"),
      deployment := Some("RESTful API with Docker containerization"),
      testing := Some("Cross-validation with real-world malware datasets")),
    liveLinks := None)

  const ClientWebsites: Project := Project(
    id := 7,
    title := "Client & Startup Websites",
    period := "2023 \U{2013} Present",
    category := "Web Development",
    images := [
      "/images/etribe.quatromgt.co.ke.png",
      "/images/test.quatromgt.co.ke.png",
      "/images/kesterpace.co.ke.png",
      "/images/marttechphones.co.ke.png"
    ],
    techDetails := TechDetails(
      architecture := "Modern web applications with responsive design and optimized performance",
      database := Some("Various solutions including MongoDB, Firebase, and custom CMS implementations"),
      deployment := Some("Professional hosting with SSL certificates and CDN optimization"),
      testing := Some("Cross-browser testing and performance optimization across all platforms")),
    liveLinks := Some([
        LiveLink("E-Tribe Business Platform", "https://etribe.quatromgt.co.ke/",
          "Comprehensive business management platform"),
        LiveLink("Forex Hub", "https://forexhub.quatromgt.co.ke/",
          "Corporate website and service portfolio"),
        LiveLink("Kester Pace Consulting", "https://kesterpace.co.ke/",
          "Professional consulting services website"),
        LiveLink("SmartTech Phones", "https://smarttechphones.co.ke/",
          "E-commerce platform for mobile devices")
      ]))

  const AgentZero: Project := Project(
    id := 8,
    title := "AgentZero",
    period := "2023 \U{2013} Present",
    category := "AI Agents",
    images := [
      "/api/placeholder/800/400",
      "/api/placeholder/800/400",
      "/api/placeholder/800/400"
    ],
    techDetails := TechDetails(
      architecture := "Microservices-based agent framework with plugin system",
      database := Some("Vector database for knowledge storage and retrieval"),
      deployment := Some("Kubernetes with auto-scaling agent instances"),
      testing := Some("Comprehensive simulation environments for agent testing")),
    liveLinks := None)

  /** `projectsData`, in declaration order. */
  const ProjectsData: seq<Project> := [
    ShadowCloak, ShadowVeil, BrainTumorDetection, FaceRecognitionSystem,
    HandTrackingProject, MalwareUrlDetection, ClientWebsites, AgentZero
  ]

  /** The table is non-empty and the ids are 1 to 8 in order, hence distinct. */
  lemma ProjectIds()
    ensures |ProjectsData| == 8
    ensures forall i :: 0 <= i < |ProjectsData| ==> ProjectsData[i].id == i + 1
    ensures forall i, j :: 0 <= i < j < |ProjectsData| ==> ProjectsData[i].id != ProjectsData[j].id
  {
  }

  /** Only the client websites entry (id 7) has live links: four of them, all
      https addresses, with one screenshot each. */
  lemma LiveLinksShape()
    ensures forall i :: 0 <= i < |ProjectsData| ==> (ProjectsData[i].liveLinks.Some? <==> ProjectsData[i].id == 7)
    ensures ClientWebsites.liveLinks.Some? && |ClientWebsites.liveLinks.value| == 4
    ensures |ClientWebsites.images| == |ClientWebsites.liveLinks.value|
  {
  }

  /** An https address: the scheme followed by a non-empty rest. */
  predicate IsHttps(url: string) {
    |url| > 8 && url[..8] == "https://"
  }

  /** Every live link of the client websites entry is an https address. */
  lemma LiveLinksSecure()
    ensures ClientWebsites.liveLinks.Some?
    ensures forall k :: 0 <= k < |ClientWebsites.liveLinks.value| ==> IsHttps(ClientWebsites.liveLinks.value[k].url)
  {
    var links := ClientWebsites.liveLinks.value;
    HttpsPrefixed("etribe.quatromgt.co.ke/");
    HttpsPrefixed("forexhub.quatromgt.co.ke/");
    HttpsPrefixed("kesterpace.co.ke/");
    HttpsPrefixed("smarttechphones.co.ke/");
  }

  lemma HttpsPrefixed(rest: string)
    requires rest != []
    ensures IsHttps("https://" + rest)
  {
    assert ("https://" + rest)[..8] == "https://";
  }

  /** Exactly the entries with ids 1 and 5 have no database detail. */
  lemma DatabaseDetailShape()
    ensures forall i :: 0 <= i < |ProjectsData| ==>
      (ProjectsData[i].techDetails.database.None? <==> ProjectsData[i].id in {1, 5})
  {
  }
}
