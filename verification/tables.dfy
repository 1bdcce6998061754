/**
 The two constant lookup tables of the prompt builder, and the closed sets
 of names they are keyed by. A name outside a table is not an error: the
 prompt builder simply leaves the corresponding block out.
 */
module Tables {
  import opened Wrappers

  /** Brainstorming technique name to a one-paragraph description. */
  const TechniqueContexts: map<string, string> := map[
    "5 Whys" := "The 5 Whys technique involves asking \"why\" repeatedly (typically five times) to drill down to the root cause of a problem.",
    "Starbursting" := "Starbursting focuses on generating questions rather than answers, using Who, What, When, Where, Why, and How.",
    "SWOT" := "SWOT Analysis examines Strengths, Weaknesses, Opportunities, and Threats related to a business situation.",
    "Porters 5 Forces" := "Porter's 5 Forces analyzes competitive rivalry, supplier power, buyer power, threat of substitution, and threat of new entry.",
    "Six Thinking Hats" := "Six Thinking Hats uses six different perspectives: White (facts), Red (emotions), Black (caution), Yellow (optimism), Green (creativity), Blue (process).",
    "SCAMPER" := "SCAMPER is a creative thinking technique: Substitute, Combine, Adapt, Modify, Put to other uses, Eliminate, Reverse.",
    "Charrette" := "Charrette is a collaborative planning process involving multiple stakeholders in intensive workshops.",
    "Stepladder" := "Stepladder technique introduces team members one at a time to ensure all voices are heard before group discussion."
  ]

  /** Business icon name to a phrase describing their thinking style. */
  const IconPerspectives: map<string, string> := map[
    "Jack Ma" := "emphasizing customer-first thinking, persistence through rejection, and building ecosystems",
    "Steve Jobs" := "focusing on design perfection, user experience, and thinking differently",
    "Peter Drucker" := "applying management science, asking what the customer values, and measuring what matters",
    "Mother Theresa" := "prioritizing compassion, serving the most vulnerable, and doing small things with great love",
    "Nikola Tesla" := "envisioning revolutionary innovation, pursuing wireless possibilities, and thinking decades ahead",
    "Sakichi Toyoda" := "applying the philosophy of continuous improvement (Kaizen) and asking why five times",
    "Estee Lauder" := "building personal relationships, believing in the product, and understanding customer aspirations",
    "Thomas Edision" := "experimenting persistently, learning from failure, and making innovation practical",
    "Henry Ford" := "standardizing processes, making products accessible, and empowering workers",
    "Andrew Carnegie" := "building strategic partnerships, vertical integration, and philanthropic legacy",
    "Sam Walton" := "obsessing over customer savings, learning from competition, and empowering associates",
    "Charles Schwab" := "democratizing access, reducing costs, and putting investor interests first",
    "Bill Gates" := "scaling technology for mass impact, strategic partnerships, and data-driven decisions",
    "Warren Buffett" := "seeking long-term value, understanding competitive moats, and staying within competence",
    "Indra Nooyi" := "balancing performance with purpose, thinking long-term, and strategic portfolio management",
    "Grace Hopper" := "making technology accessible, challenging the status quo, and asking forgiveness not permission",
    "Martin Luther King" := "appealing to moral principles, building coalitions, and envisioning a better future"
  ]

  /**
   The two tables as the prompt builder consults them. The builder is
   stated for any pair of tables; `Shipped` is the pair the application
   defines.
   */
  datatype Catalog = Catalog(contexts: map<string, string>, perspectives: map<string, string>)

  const Shipped := Catalog(TechniqueContexts, IconPerspectives)

  /**
   The keys of each table, listed on their own so that a lookup by name
   need not unfold the texts; `TechniqueKeys` and `IconKeys` show they are
   exactly the tables' keys.
   */
  const TechniqueNames: set<string> := {
    "5 Whys", "Starbursting", "SWOT", "Porters 5 Forces",
    "Six Thinking Hats", "SCAMPER", "Charrette", "Stepladder"
  }

  const IconNames: set<string> := {
    "Jack Ma", "Steve Jobs", "Peter Drucker", "Mother Theresa",
    "Nikola Tesla", "Sakichi Toyoda", "Estee Lauder", "Thomas Edision",
    "Henry Ford", "Andrew Carnegie", "Sam Walton", "Charles Schwab",
    "Bill Gates", "Warren Buffett", "Indra Nooyi", "Grace Hopper",
    "Martin Luther King"
  }

  lemma TechniqueKeys()
    ensures TechniqueContexts.Keys == TechniqueNames
  {
  }

  lemma IconKeys()
    ensures IconPerspectives.Keys == IconNames
  {
  }

  /** The application's tables are keyed by exactly the technique and icon names. */
  lemma ShippedKeys()
    ensures Shipped.contexts.Keys == TechniqueNames
    ensures Shipped.perspectives.Keys == IconNames
  {
    TechniqueKeys();
    IconKeys();
  }

  /** The techniques the description table knows, as a closed set. */
  datatype Technique =
    | FiveWhys | Starbursting | Swot | PortersFiveForces
    | SixThinkingHats | Scamper | Charrette | Stepladder
  {
    /** The key under which the technique appears in the table. */
    function Name(): string {
      match this
      case FiveWhys => "5 Whys"
      case Starbursting => "Starbursting"
      case Swot => "SWOT"
      case PortersFiveForces => "Porters 5 Forces"
      case SixThinkingHats => "Six Thinking Hats"
      case Scamper => "SCAMPER"
      case Charrette => "Charrette"
      case Stepladder => "Stepladder"
    }
  }

  /** The technique a client-supplied name denotes, if the table knows it. */
  function TechniqueNamed(name: string): (t: Option<Technique>)
    ensures t.Some? <==> name in TechniqueNames
    ensures t.Some? ==> t.value.Name() == name
  {
    if name == "5 Whys" then Some(FiveWhys)
    else if name == "Starbursting" then Some(Starbursting)
    else if name == "SWOT" then Some(Swot)
    else if name == "Porters 5 Forces" then Some(PortersFiveForces)
    else if name == "Six Thinking Hats" then Some(SixThinkingHats)
    else if name == "SCAMPER" then Some(Scamper)
    else if name == "Charrette" then Some(Charrette)
    else if name == "Stepladder" then Some(Stepladder)
    else None
  }

  /** Every technique's name is a table key (see `TechniqueKeys`), and it leads back to the technique. */
  lemma TechniqueNameRoundTrip(t: Technique)
    ensures t.Name() in TechniqueNames
    ensures TechniqueNamed(t.Name()) == Some(t)
  {
  }

  /** The icons the perspective table knows, as a closed set. */
  datatype Icon =
    | JackMa | SteveJobs | PeterDrucker | MotherTheresa | NikolaTesla
    | SakichiToyoda | EsteeLauder | ThomasEdision | HenryFord
    | AndrewCarnegie | SamWalton | CharlesSchwab | BillGates
    | WarrenBuffett | IndraNooyi | GraceHopper | MartinLutherKing
  {
    /** The key under which the icon appears in the table (spelling as in the table). */
    function Name(): string {
      match this
      case JackMa => "Jack Ma"
      case SteveJobs => "Steve Jobs"
      case PeterDrucker => "Peter Drucker"
      case MotherTheresa => "Mother Theresa"
      case NikolaTesla => "Nikola Tesla"
      case SakichiToyoda => "Sakichi Toyoda"
      case EsteeLauder => "Estee Lauder"
      case ThomasEdision => "Thomas Edision"
      case HenryFord => "Henry Ford"
      case AndrewCarnegie => "Andrew Carnegie"
      case SamWalton => "Sam Walton"
      case CharlesSchwab => "Charles Schwab"
      case BillGates => "Bill Gates"
      case WarrenBuffett => "Warren Buffett"
      case IndraNooyi => "Indra Nooyi"
      case GraceHopper => "Grace Hopper"
      case MartinLutherKing => "Martin Luther King"
    }
  }

  /** The icon a client-supplied name denotes, if the table knows it. */
  function IconNamed(name: string): (i: Option<Icon>)
    ensures i.Some? <==> name in IconNames
    ensures i.Some? ==> i.value.Name() == name
  {
    if name == "Jack Ma" then Some(JackMa)
    else if name == "Steve Jobs" then Some(SteveJobs)
    else if name == "Peter Drucker" then Some(PeterDrucker)
    else if name == "Mother Theresa" then Some(MotherTheresa)
    else if name == "Nikola Tesla" then Some(NikolaTesla)
    else if name == "Sakichi Toyoda" then Some(SakichiToyoda)
    else if name == "Estee Lauder" then Some(EsteeLauder)
    else if name == "Thomas Edision" then Some(ThomasEdision)
    else if name == "Henry Ford" then Some(HenryFord)
    else if name == "Andrew Carnegie" then Some(AndrewCarnegie)
    else if name == "Sam Walton" then Some(SamWalton)
    else if name == "Charles Schwab" then Some(CharlesSchwab)
    else if name == "Bill Gates" then Some(BillGates)
    else if name == "Warren Buffett" then Some(WarrenBuffett)
    else if name == "Indra Nooyi" then Some(IndraNooyi)
    else if name == "Grace Hopper" then Some(GraceHopper)
    else if name == "Martin Luther King" then Some(MartinLutherKing)
    else None
  }

  /** Every icon's name is a table key (see `IconKeys`), and it leads back to the icon. */
  lemma IconNameRoundTrip(i: Icon)
    ensures i.Name() in IconNames
    ensures IconNamed(i.Name()) == Some(i)
  {
  }
}
