/** The three static plans the page offers, built from their literal topic lists. */
module Curriculum {
  import opened Wrappers
  import opened Lectures
  import opened Catalog

  const SchoolEnglishTopics: seq<string> := [
       "Course Orientation & Baseline Speaking",
    "Introducing Yourself & Everyday Conversation",
    "Pronunciation Basics & Common Fixes",
    "Listening Skills & Shadowing",
    "Vocabulary Building: Daily Context",
    "Asking Questions & Clarifying",
    "Describing People/Places/Things",
    "Expressing Opinions Clearly",
    "Narrating Past Events (Simple Past)",
    "Talking about Plans (Future Forms)",
    "Parts of Speech Overview",
    "Tenses: Present (All Forms)",
    "Tenses: Past (All Forms)",
    "Tenses: Future (All Forms)",
    "Articles & Determiners",
    "Prepositions & Collocations",
    "Subject\U{2013}Verb Agreement",
    "Modals (can/could/may/must/should)",
    "Active vs Passive Voice",
    "Direct & Indirect Speech",
    "Role Plays: School Scenarios",
    "Role Plays: Shopping/Travel",
    "Group Discussion: Do\U{2019}s & Don\U{2019}ts",
    "Storytelling Techniques",
    "Descriptive & Picture-based Speaking",
    "Debate Basics & Persuasion",
    "Interview Basics for School Events",
    "Public Speaking: Structure & Delivery",
    "Pronunciation: Stress & Intonation",
    "Accent Neutralization Practice",
    "Reading Comprehension Strategies",
    "Summarizing & Paraphrasing",
    "Note-taking for Listening/Speaking",
    "E-mail & Message Writing",
    "Letter/Application Writing",
    "Essay Writing: Structure & Flow",
    "Report & Notice Writing",
    "Vocabulary: Idioms & Phrasal Verbs",
    "Common Errors & Quick Fixes",
    "Mock Speaking Test I",
    "Individual Feedback & Plan",
    "Advanced Discussion Topics",
    "Presentation Skills: Slides + Speech",
    "Mock Speaking Test II",
    "Showcase Day: Presentations",
    "Final Review",
    "Certificates & Next Steps"
  ]

  const SchoolComputersTopics: seq<string> := [
       "What is a Computer? Devices & Use Cases",
    "Hardware vs Software; I/O Devices",
    "Operating Systems Basics (Win/Linux/Android)",
    "Files, Folders, Extensions & Safe Downloads",
    "Typing Speed & Essential Shortcuts",
    "Word Processors: Formatting & Layout",
    "Spreadsheets: Cells, Formulas, Charts",
    "Presentations: Slides, Images, Animations",
    "Email Basics: Etiquette & Attachments",
    "Cloud Storage (Drive/OneDrive): Organization",
    "Web Browsers & Effective Searching",
    "Digital Citizenship & Online Behavior",
    "Cyber Safety: Passwords, 2FA, Phishing",
    "Social Media Awareness & Privacy",
    "Responsible Content Creation",
    "Scratch: Animations & Logic",
    "Scratch: Simple Games & Conditionals",
    "HTML Basics: Structure & Tags",
    "HTML: Links, Images, Lists",
    "CSS Basics: Colors, Fonts, Box Model",
    "JavaScript Intro: Variables & Events",
    "JavaScript: Conditions & Loops",
    "Mini Web Project: Profile Page",
    "Windows Essentials: Settings & Updates",
    "Linux Primer (Ubuntu): GUI & Terminal",
    "Compression, PDFs & Utilities",
    "Basic Photo Editing (Projects)",
    "Simple Video Editing (School Projects)",
    "Networking: Wi-Fi, LAN, Internet",
    "IP Address (Simple View) & Why It Matters",
    "Careers in Tech: Roles & Skills",
    "AI Basics: Capabilities & Limits",
    "Responsible AI Use in Studies",
    "Python: Variables & Data Types",
    "Python: Input/Output & Operators",
    "Python: Conditions & Loops",
    "Python: Lists & Dictionaries",
    "Python Mini Project: Quiz App",
    "Group Project Planning",
    "Build: Static School Blog",
    "Build: Science Fair Poster",
    "Build: Scratch Game Final",
    "Project Testing & Feedback",
    "Showcase Day & Review",
    "Exam & Certificates",
    "Next Steps in Tech Learning"
  ]

  const CollegeTopics: seq<string> := [
       "Orientation & CS Mindset",
    "Programming Basics: Variables, Types, IO",
    "Control Flow: Conditionals & Loops",
    "Functions, Recursion & Complexity Intro",
    "Data Structures Overview & Use-cases",
    "Arrays & Strings: Patterns & Problems",
    "Linked List: Implementation & Problems",
    "Stacks & Queues: Applications",
    "Hashing: Maps/Sets & Collisions",
    "Sorting: Merge/Quick/Heapsort",
    "Searching & Binary Search Patterns",
    "Trees: Traversals & Problems",
    "BST: Operations & Validation",
    "Heaps & Priority Queues",
    "Graphs: Representation, BFS/DFS",
    "Graph Problems: Shortest Paths",
    "MST & Union-Find",
    "Dynamic Programming: Basics",
    "DP: Knapsack, LCS Patterns",
    "Greedy: Activity, Huffman",
    "Bit Manipulation Essentials",
    "OS: Processes & Threads",
    "OS: Scheduling & Sync",
    "OS: Deadlocks & Memory",
    "OS: Virtual Memory & File Systems",
    "DBMS: ER Model & Relational Model",
    "Normalization & Keys",
    "SQL Basics: DDL/DML/DQL",
    "SQL Joins & Aggregations",
    "Indexing & Query Tuning",
    "Transactions & Isolation",
    "CN: Models & Layers",
    "IP/Subnets & Routing Basics",
    "TCP/UDP & Sockets",
    "HTTP/HTTPS & the Web",
    "DNS/CDN & Latency",
    "OOP: Principles & Patterns",
    "Interfaces, Abstraction & SOLID",
    "Error Handling & Clean Code",
    "System Design Thinking",
    "Caching, Load Balancing, Queues",
    "Data Partitioning & Consistency",
    "Modern Web: FE/BE Overview",
    "Capstone Planning: Feature Specs",
    "Capstone: Iteration 1",
    "Capstone: Iteration 2",
    "Testing, Monitoring & Docs",
    "Resume & Portfolio",
    "Interview Prep: DSA + CS",
    "Mock Interviews & Feedback",
    "AI Prompting: Principles",
    "Prompt Patterns for Devs",
    "ML Basics: Types & Workflow",
    "Data Prep & Model Intuition",
    "SQL Deep Dive: CTEs & Windows",
    "Final Review & Next Steps"
  ]

  const SchoolEnglishPlan := ToLecturePlanFromTopics(SchoolEnglishTopics, Tenths(15), [])

  const SchoolComputersPlan := ToLecturePlanFromTopics(SchoolComputersTopics, Tenths(15), [])

  const CollegePlan := ToLecturePlanFromTopics(CollegeTopics, Tenths(20), [])

  /** The catalog as the page ships it. */
  const StaticPlans := Plans(SchoolEnglishPlan, SchoolComputersPlan, CollegePlan)

  /** Every row of a plan has the given duration and no published links. */
  ghost predicate Uniform(plan: seq<LectureRow>, d: Duration) {
    forall i :: 0 <= i < |plan| ==> plan[i].duration == d && plan[i].notesUrl == None && plan[i].dppUrl == None
  }

  /** The English plan: 47 numbered rows of 1.5 hours, none with links yet. */
  lemma SchoolEnglishPlanShape()
    ensures |SchoolEnglishPlan| == 47 && IsNumbered(SchoolEnglishPlan) && Uniform(SchoolEnglishPlan, Tenths(15))
  {
    PlanWellFormed(SchoolEnglishTopics, Tenths(15), []);
  }

  /** The computers plan: 46 numbered rows of 1.5 hours, none with links yet. */
  lemma SchoolComputersPlanShape()
    ensures |SchoolComputersPlan| == 46 && IsNumbered(SchoolComputersPlan) && Uniform(SchoolComputersPlan, Tenths(15))
  {
    PlanWellFormed(SchoolComputersTopics, Tenths(15), []);
  }

  /** The college plan: 56 numbered rows of 2 hours, none with links yet. */
  lemma CollegePlanShape()
    ensures |CollegePlan| == 56 && IsNumbered(CollegePlan) && Uniform(CollegePlan, Tenths(20))
  {
    PlanWellFormed(CollegeTopics, Tenths(20), []);
  }
}
