/** The curated question banks and the guess-option lists of the store. */
module Banks {
  import opened Types
  import opened Collections

  /**
   * An entry of a bank: a knowledge-quiz item or an image-guessing item. An
   * image is named by its Unsplash photo name; the host and the query string
   * every address shares are not kept.
   */
  datatype BankItem =
    | QuizItem(question: string, options: seq<string>, correctAnswer: string, category: string,
               photo: string, explanation: string)
    | GuessItem(hint: string, correctAnswer: string, photo: string, category: string)

  // The twelve general-knowledge items, one constant each.
  const NationalAnimal: BankItem :=
    QuizItem(
      "Which is the national animal of India?",
      ["Lion", "Tiger", "Elephant", "Peacock"],
      "Tiger", "general",
      "photo-1615824996195-f780bba7f32b",
      "The Bengal Tiger was declared as the national animal of India in 1973.")
  const FestivalOfLights: BankItem :=
    QuizItem(
      "Which festival is known as the 'Festival of Lights'?",
      ["Holi", "Diwali", "Durga Puja", "Eid"],
      "Diwali", "culture",
      "photo-1574265932589-955bdbb0b3a3",
      "Diwali symbolizes the spiritual victory of light over darkness and good over evil.")
  const LargestState: BankItem :=
    QuizItem(
      "Which is the largest state in India by area?",
      ["Maharashtra", "Madhya Pradesh", "Uttar Pradesh", "Rajasthan"],
      "Rajasthan", "geography",
      "photo-1599661046289-e31897846e41",
      "Rajasthan, covering 342,239 square kilometers, is India's largest state by area.")
  const RedPlanet: BankItem :=
    QuizItem(
      "Which planet is known as the Red Planet?",
      ["Venus", "Jupiter", "Mars", "Saturn"],
      "Mars", "science",
      "photo-1614728894747-a83421e2b9c9",
      "Mars appears red due to iron oxide (rust) on its surface.")
  const NationalFlower: BankItem :=
    QuizItem(
      "Which is the national flower of India?",
      ["Rose", "Lotus", "Sunflower", "Lily"],
      "Lotus", "general",
      "photo-1606293926249-ed2331ab6558",
      "The Lotus represents purity, prosperity, and spirituality in Indian culture.")
  const PinkCity: BankItem :=
    QuizItem(
      "Which Indian city is known as the 'Pink City'?",
      ["Jaipur", "Jodhpur", "Udaipur", "Bikaner"],
      "Jaipur", "geography",
      "photo-1599661046289-e31897846e41",
      "Jaipur is called the Pink City due to the pink-colored buildings in its old city area.")
  const TendulkarSport: BankItem :=
    QuizItem(
      "Which sport is Sachin Tendulkar associated with?",
      ["Hockey", "Cricket", "Football", "Badminton"],
      "Cricket", "sports",
      "photo-1531415074968-036ba1b575da",
      "Sachin Tendulkar is known as the 'God of Cricket' and holds numerous cricket records.")
  const LongestRiver: BankItem :=
    QuizItem(
      "Which is the longest river in India?",
      ["Yamuna", "Brahmaputra", "Ganga", "Godavari"],
      "Ganga", "geography",
      "photo-1591018533273-5a45e534a05d",
      "The Ganga River, stretching over 2,525 kilometers, is India's longest river.")
  const SmallestPlanet: BankItem :=
    QuizItem(
      "Which is the smallest planet in our solar system?",
      ["Mars", "Mercury", "Venus", "Pluto"],
      "Mercury", "science",
      "photo-1614732414444-096e5f1122d5",
      "Mercury is the smallest and innermost planet in the Solar System.")
  const PlantsAbsorb: BankItem :=
    QuizItem(
      "Which gas do plants absorb from the air?",
      ["Oxygen", "Carbon Dioxide", "Nitrogen", "Hydrogen"],
      "Carbon Dioxide", "science",
      "photo-1523712999610-f77fbcfc3843",
      "Plants absorb carbon dioxide during photosynthesis to produce food and oxygen.")
  const NationalAnthem: BankItem :=
    QuizItem(
      "Who wrote India's national anthem?",
      ["Rabindranath Tagore", "Bankim Chandra Chattopadhyay", "Sarojini Naidu", "Mahatma Gandhi"],
      "Rabindranath Tagore", "culture",
      "photo-1532375810709-75b1da00537c",
      "Jana Gana Mana was written by Rabindranath Tagore in Bengali and adopted as India's national anthem in 1950.")
  const HardestSubstance: BankItem :=
    QuizItem(
      "Which is the hardest natural substance?",
      ["Gold", "Iron", "Diamond", "Platinum"],
      "Diamond", "science",
      "photo-1615655406736-b37c4fabf923",
      "Diamond is the hardest known natural material on Earth.")

  /** The twelve general-knowledge items. */
  const QuizBank: seq<BankItem> :=
    [ NationalAnimal, FestivalOfLights, LargestState, RedPlanet,
      NationalFlower, PinkCity, TendulkarSport, LongestRiver,
      SmallestPlanet, PlantsAbsorb, NationalAnthem, HardestSubstance ]

  // The twelve image-guessing items, one constant each.
  const TajMahalImage: BankItem :=
    GuessItem(
      "One of the seven wonders of the world", "Taj Mahal",
      "photo-1564507592333-c60657eea523",
      "monuments")
  const PeacockImage: BankItem :=
    GuessItem(
      "National bird of India", "Peacock",
      "photo-1511208687438-2c5a5abb810c",
      "animals")
  const MangoImage: BankItem :=
    GuessItem(
      "King of fruits", "Mango",
      "photo-1553279768-865429fa0078",
      "fruits")
  const HoliImage: BankItem :=
    GuessItem(
      "Festival of colors", "Holi",
      "photo-1592234403516-69701d156517",
      "festivals")
  const CricketImage: BankItem :=
    GuessItem(
      "Most popular sport in India", "Cricket",
      "photo-1531415074968-036ba1b575da",
      "sports")
  const RedFortImage: BankItem :=
    GuessItem(
      "Famous fort in Delhi", "Red Fort",
      "photo-1585135497273-1a86b09fe70e",
      "monuments")
  const GangaImage: BankItem :=
    GuessItem(
      "Sacred river in India", "Ganga",
      "photo-1591018533273-5a45e534a05d",
      "geography")
  const BananaImage: BankItem :=
    GuessItem(
      "Yellow curved fruit", "Banana",
      "photo-1571771894821-ce9b6c11b08e",
      "fruits")
  const DiwaliImage: BankItem :=
    GuessItem(
      "Festival of lights", "Diwali",
      "photo-1574265932589-955bdbb0b3a3",
      "festivals")
  const TigerImage: BankItem :=
    GuessItem(
      "National animal of India", "Tiger",
      "photo-1615824996195-f780bba7f32b",
      "animals")
  const MeenakshiTempleImage: BankItem :=
    GuessItem(
      "Famous temple in South India", "Meenakshi Temple",
      "photo-1582651957695-5c1c3c21fdf0",
      "monuments")
  const KalaripayattuImage: BankItem :=
    GuessItem(
      "Traditional Indian martial art", "Kalaripayattu",
      "photo-1583321500900-82807e458f3c",
      "sports")

  /** The twelve image-guessing items. */
  const GuessBank: seq<BankItem> :=
    [ TajMahalImage, PeacockImage, MangoImage, HoliImage,
      CricketImage, RedFortImage, GangaImage, BananaImage,
      DiwaliImage, TigerImage, MeenakshiTempleImage, KalaripayattuImage ]

  // Candidate answers for each guess category.
  const MonumentsOptions: seq<string> := ["Taj Mahal", "Red Fort", "Qutub Minar", "India Gate", "Gateway of India", "Hawa Mahal", "Meenakshi Temple", "Konark Sun Temple"]
  const AnimalsOptions: seq<string> := ["Tiger", "Lion", "Elephant", "Peacock", "Monkey", "Cow", "Deer", "Rhinoceros"]
  const FruitsOptions: seq<string> := ["Mango", "Banana", "Apple", "Orange", "Grapes", "Watermelon", "Papaya", "Pomegranate"]
  const FestivalsOptions: seq<string> := ["Diwali", "Holi", "Dussehra", "Eid", "Christmas", "Navratri", "Janmashtami", "Onam"]
  const SportsOptions: seq<string> := ["Cricket", "Football", "Hockey", "Badminton", "Kabaddi", "Tennis", "Chess", "Kalaripayattu"]
  const GeographyOptions: seq<string> := ["Ganga", "Yamuna", "Brahmaputra", "Himalaya", "Thar Desert", "Western Ghats", "Eastern Ghats", "Sundarbans"]

  /** Candidate answers per guess category. */
  const OptionsByCategory: map<string, seq<string>> :=
    map[
      "monuments" := MonumentsOptions,
      "animals" := AnimalsOptions,
      "fruits" := FruitsOptions,
      "festivals" := FestivalsOptions,
      "sports" := SportsOptions,
      "geography" := GeographyOptions
    ]

  /** The categories a difficulty draws quiz items from. */
  function QuizCategories(d: Difficulty): set<string>
  {
    match d
    case Easy => {"general", "culture"}
    case Medium => {"geography", "sports"}
    case Hard => {"science", "history"}
  }

  /** The categories a difficulty draws guess items from. */
  function GuessCategories(d: Difficulty): set<string>
  {
    match d
    case Easy => {"fruits", "animals"}
    case Medium => {"festivals", "sports"}
    case Hard => {"monuments", "geography"}
  }

  /** `bank.filter(q => categories.includes(q.category))`, keeping bank order. */
  function InCategories(xs: seq<BankItem>, categories: set<string>): (r: seq<BankItem>)
    ensures |r| <= |xs|
    ensures forall x :: x in r <==> x in xs && x.category in categories
    ensures Distinct(xs) ==> Distinct(r)
    decreases |xs|
  {
    if |xs| == 0 then []
    else
      assert xs == [xs[0]] + xs[1..];
      var rest := InCategories(xs[1..], categories);
      DistinctCons(xs[0], xs[1..]);
      DistinctCons(xs[0], rest);
      if xs[0].category in categories then [xs[0]] + rest else rest
  }

  /**
   * The filter keeps the bank's order: filtering two runs of items one after
   * the other gives the kept items of the first, then those of the second.
   */
  lemma {:induction false} InCategoriesKeepsOrder(xs: seq<BankItem>, ys: seq<BankItem>, categories: set<string>)
    ensures InCategories(xs + ys, categories) == InCategories(xs, categories) + InCategories(ys, categories)
    decreases |xs|
  {
    if |xs| > 0 {
      assert (xs + ys)[1..] == xs[1..] + ys;
      InCategoriesKeepsOrder(xs[1..], ys, categories);
    } else {
      assert xs + ys == ys;
    }
  }

  /** A bank of quiz items, each of which offers its own answer among its choices. */
  predicate IsQuizBank(bank: seq<BankItem>)
  {
    forall x :: x in bank ==> QuizItemOk(x)
  }

  /** A bank of guess items. */
  predicate IsGuessBank(bank: seq<BankItem>)
  {
    forall x :: x in bank ==> x.GuessItem?
  }

  /** Every quiz item offers four choices, one of which is its answer. */
  lemma QuizBankWellFormed()
    ensures IsQuizBank(QuizBank)
  {
    assert QuizItemOk(NationalAnimal);
    assert QuizItemOk(FestivalOfLights);
    assert QuizItemOk(LargestState);
    assert QuizItemOk(RedPlanet);
    assert QuizItemOk(NationalFlower);
    assert QuizItemOk(PinkCity);
    assert QuizItemOk(TendulkarSport);
    assert QuizItemOk(LongestRiver);
    assert QuizItemOk(SmallestPlanet);
    assert QuizItemOk(PlantsAbsorb);
    assert QuizItemOk(NationalAnthem);
    assert QuizItemOk(HardestSubstance);
    forall x | x in QuizBank
      ensures QuizItemOk(x)
    {
    }
  }

  /** A quiz item whose correct answer is one of its own options. */
  predicate QuizItemOk(item: BankItem)
  {
    item.QuizItem? && item.correctAnswer in item.options
  }

  /** Every guess item's answer is among the candidates of its own category. */
  lemma GuessBankWellFormed()
    ensures IsGuessBank(GuessBank)
    ensures forall i :: 0 <= i < |GuessBank| ==>
              && GuessBank[i].GuessItem?
              && GuessBank[i].category in OptionsByCategory
              && GuessBank[i].correctAnswer in OptionsByCategory[GuessBank[i].category]
  {
    forall i | 0 <= i < |GuessBank|
      ensures GuessBank[i].category in OptionsByCategory
      ensures GuessBank[i].correctAnswer in OptionsByCategory[GuessBank[i].category]
    {
      var c := GuessBank[i].category;
      assert c in {"monuments", "animals", "fruits", "festivals", "sports", "geography"};
    }
  }

  /** The quiz bank lists no item twice: no two items share an answer. */
  lemma QuizBankDistinct()
    ensures Distinct(QuizBank)
  {
    forall i, j | 0 <= i < j < |QuizBank|
      ensures QuizBank[i] != QuizBank[j]
    {
      assert QuizBank[i].correctAnswer != QuizBank[j].correctAnswer;
    }
  }

  /** The guess bank lists no item twice: no two items share a hint. */
  lemma GuessBankDistinct()
    ensures Distinct(GuessBank)
  {
    forall i, j | 0 <= i < j < |GuessBank|
      ensures GuessBank[i] != GuessBank[j]
    {
      assert GuessBank[i].hint != GuessBank[j].hint;
    }
  }

  /** Each candidate list has eight entries without repeats. */
  lemma CategoryListsWellFormed()
    ensures forall c :: c in OptionsByCategory ==> |OptionsByCategory[c]| == 8 && Distinct(OptionsByCategory[c])
  {
    forall c | c in OptionsByCategory
      ensures |OptionsByCategory[c]| == 8 && Distinct(OptionsByCategory[c])
    {
      assert c in {"monuments", "animals", "fruits", "festivals", "sports", "geography"};
      if c == "monuments" { EightDistinct(MonumentsOptions); }
      else if c == "animals" { EightDistinct(AnimalsOptions); }
      else if c == "fruits" { EightDistinct(FruitsOptions); }
      else if c == "festivals" { EightDistinct(FestivalsOptions); }
      else if c == "sports" { EightDistinct(SportsOptions); }
      else { EightDistinct(GeographyOptions); }
    }
  }

  /** One candidate list: eight names, pairwise different. */
  lemma EightDistinct(xs: seq<string>)
    requires xs in [MonumentsOptions, AnimalsOptions, FruitsOptions, FestivalsOptions, SportsOptions, GeographyOptions]
    ensures |xs| == 8 && Distinct(xs)
  {
  }

  /** The categories of a bank's items, in bank order. */
  function Categories(xs: seq<BankItem>): (cs: seq<string>)
    ensures |cs| == |xs|
    ensures forall i :: 0 <= i < |xs| ==> cs[i] == xs[i].category
  {
    seq(|xs|, i requires 0 <= i < |xs| => xs[i].category)
  }

  /** How many of `cs` lie in `categories`. */
  function CountIn(cs: seq<string>, categories: set<string>): nat
  {
    if |cs| == 0 then 0
    else (if cs[0] in categories then 1 else 0) + CountIn(cs[1..], categories)
  }

  /** The filter keeps as many items as there are categories in the chosen set. */
  lemma {:induction false} InCategoriesCount(xs: seq<BankItem>, categories: set<string>)
    ensures |InCategories(xs, categories)| == CountIn(Categories(xs), categories)
    decreases |xs|
  {
    if |xs| > 0 {
      InCategoriesCount(xs[1..], categories);
      assert Categories(xs)[1..] == Categories(xs[1..]);
    }
  }

  const QuizBankCategoryList: seq<string> :=
    ["general", "culture", "geography", "science", "general", "geography",
     "sports", "geography", "science", "science", "culture", "science"]

  const GuessBankCategoryList: seq<string> :=
    ["monuments", "animals", "fruits", "festivals", "sports", "monuments",
     "geography", "fruits", "festivals", "animals", "monuments", "sports"]

  lemma QuizBankCategories()
    ensures Categories(QuizBank) == QuizBankCategoryList
  {
  }

  lemma GuessBankCategories()
    ensures Categories(GuessBank) == GuessBankCategoryList
  {
  }

  /** Each difficulty's categories cover four entries of each list. */
  lemma CategoryListCounts(d: Difficulty)
    ensures CountIn(QuizBankCategoryList, QuizCategories(d)) == 4
    ensures CountIn(GuessBankCategoryList, GuessCategories(d)) == 4
  {
    match d
    case Easy => QuizCountEasy(); GuessCountEasy();
    case Medium => QuizCountMedium(); GuessCountMedium();
    case Hard => QuizCountHard(); GuessCountHard();
  }

  lemma QuizCountEasy()
    ensures CountIn(QuizBankCategoryList, QuizCategories(Easy)) == 4
  {
    var cs := QuizBankCategoryList;
    var cats: set<string> := {"general", "culture"};
    assert CountIn(cs[12..], cats) == 0;
    assert cs[11..][1..] == cs[12..];
    assert CountIn(cs[11..], cats) == 0;
    assert cs[10..][1..] == cs[11..];
    assert CountIn(cs[10..], cats) == 1;
    assert cs[9..][1..] == cs[10..];
    assert CountIn(cs[9..], cats) == 1;
    assert cs[8..][1..] == cs[9..];
    assert CountIn(cs[8..], cats) == 1;
    assert cs[7..][1..] == cs[8..];
    assert CountIn(cs[7..], cats) == 1;
    assert cs[6..][1..] == cs[7..];
    assert CountIn(cs[6..], cats) == 1;
    assert cs[5..][1..] == cs[6..];
    assert CountIn(cs[5..], cats) == 1;
    assert cs[4..][1..] == cs[5..];
    assert CountIn(cs[4..], cats) == 2;
    assert cs[3..][1..] == cs[4..];
    assert CountIn(cs[3..], cats) == 2;
    assert cs[2..][1..] == cs[3..];
    assert CountIn(cs[2..], cats) == 2;
    assert cs[1..][1..] == cs[2..];
    assert CountIn(cs[1..], cats) == 3;
    assert cs[0..][1..] == cs[1..];
    assert CountIn(cs[0..], cats) == 4;
    assert cs[0..] == cs;
  }

  lemma GuessCountEasy()
    ensures CountIn(GuessBankCategoryList, GuessCategories(Easy)) == 4
  {
    var cs := GuessBankCategoryList;
    var cats: set<string> := {"fruits", "animals"};
    assert CountIn(cs[12..], cats) == 0;
    assert cs[11..][1..] == cs[12..];
    assert CountIn(cs[11..], cats) == 0;
    assert cs[10..][1..] == cs[11..];
    assert CountIn(cs[10..], cats) == 0;
    assert cs[9..][1..] == cs[10..];
    assert CountIn(cs[9..], cats) == 1;
    assert cs[8..][1..] == cs[9..];
    assert CountIn(cs[8..], cats) == 1;
    assert cs[7..][1..] == cs[8..];
    assert CountIn(cs[7..], cats) == 2;
    assert cs[6..][1..] == cs[7..];
    assert CountIn(cs[6..], cats) == 2;
    assert cs[5..][1..] == cs[6..];
    assert CountIn(cs[5..], cats) == 2;
    assert cs[4..][1..] == cs[5..];
    assert CountIn(cs[4..], cats) == 2;
    assert cs[3..][1..] == cs[4..];
    assert CountIn(cs[3..], cats) == 2;
    assert cs[2..][1..] == cs[3..];
    assert CountIn(cs[2..], cats) == 3;
    assert cs[1..][1..] == cs[2..];
    assert CountIn(cs[1..], cats) == 4;
    assert cs[0..][1..] == cs[1..];
    assert CountIn(cs[0..], cats) == 4;
    assert cs[0..] == cs;
  }

  lemma QuizCountMedium()
    ensures CountIn(QuizBankCategoryList, QuizCategories(Medium)) == 4
  {
    var cs := QuizBankCategoryList;
    var cats: set<string> := {"geography", "sports"};
    assert CountIn(cs[12..], cats) == 0;
    assert cs[11..][1..] == cs[12..];
    assert CountIn(cs[11..], cats) == 0;
    assert cs[10..][1..] == cs[11..];
    assert CountIn(cs[10..], cats) == 0;
    assert cs[9..][1..] == cs[10..];
    assert CountIn(cs[9..], cats) == 0;
    assert cs[8..][1..] == cs[9..];
    assert CountIn(cs[8..], cats) == 0;
    assert cs[7..][1..] == cs[8..];
    assert CountIn(cs[7..], cats) == 1;
    assert cs[6..][1..] == cs[7..];
    assert CountIn(cs[6..], cats) == 2;
    assert cs[5..][1..] == cs[6..];
    assert CountIn(cs[5..], cats) == 3;
    assert cs[4..][1..] == cs[5..];
    assert CountIn(cs[4..], cats) == 3;
    assert cs[3..][1..] == cs[4..];
    assert CountIn(cs[3..], cats) == 3;
    assert cs[2..][1..] == cs[3..];
    assert CountIn(cs[2..], cats) == 4;
    assert cs[1..][1..] == cs[2..];
    assert CountIn(cs[1..], cats) == 4;
    assert cs[0..][1..] == cs[1..];
    assert CountIn(cs[0..], cats) == 4;
    assert cs[0..] == cs;
  }

  lemma GuessCountMedium()
    ensures CountIn(GuessBankCategoryList, GuessCategories(Medium)) == 4
  {
    var cs := GuessBankCategoryList;
    var cats: set<string> := {"festivals", "sports"};
    assert CountIn(cs[12..], cats) == 0;
    assert cs[11..][1..] == cs[12..];
    assert CountIn(cs[11..], cats) == 1;
    assert cs[10..][1..] == cs[11..];
    assert CountIn(cs[10..], cats) == 1;
    assert cs[9..][1..] == cs[10..];
    assert CountIn(cs[9..], cats) == 1;
    assert cs[8..][1..] == cs[9..];
    assert CountIn(cs[8..], cats) == 2;
    assert cs[7..][1..] == cs[8..];
    assert CountIn(cs[7..], cats) == 2;
    assert cs[6..][1..] == cs[7..];
    assert CountIn(cs[6..], cats) == 2;
    assert cs[5..][1..] == cs[6..];
    assert CountIn(cs[5..], cats) == 2;
    assert cs[4..][1..] == cs[5..];
    assert CountIn(cs[4..], cats) == 3;
    assert cs[3..][1..] == cs[4..];
    assert CountIn(cs[3..], cats) == 4;
    assert cs[2..][1..] == cs[3..];
    assert CountIn(cs[2..], cats) == 4;
    assert cs[1..][1..] == cs[2..];
    assert CountIn(cs[1..], cats) == 4;
    assert cs[0..][1..] == cs[1..];
    assert CountIn(cs[0..], cats) == 4;
    assert cs[0..] == cs;
  }

  lemma QuizCountHard()
    ensures CountIn(QuizBankCategoryList, QuizCategories(Hard)) == 4
  {
    var cs := QuizBankCategoryList;
    var cats: set<string> := {"science", "history"};
    assert CountIn(cs[12..], cats) == 0;
    assert cs[11..][1..] == cs[12..];
    assert CountIn(cs[11..], cats) == 1;
    assert cs[10..][1..] == cs[11..];
    assert CountIn(cs[10..], cats) == 1;
    assert cs[9..][1..] == cs[10..];
    assert CountIn(cs[9..], cats) == 2;
    assert cs[8..][1..] == cs[9..];
    assert CountIn(cs[8..], cats) == 3;
    assert cs[7..][1..] == cs[8..];
    assert CountIn(cs[7..], cats) == 3;
    assert cs[6..][1..] == cs[7..];
    assert CountIn(cs[6..], cats) == 3;
    assert cs[5..][1..] == cs[6..];
    assert CountIn(cs[5..], cats) == 3;
    assert cs[4..][1..] == cs[5..];
    assert CountIn(cs[4..], cats) == 3;
    assert cs[3..][1..] == cs[4..];
    assert CountIn(cs[3..], cats) == 4;
    assert cs[2..][1..] == cs[3..];
    assert CountIn(cs[2..], cats) == 4;
    assert cs[1..][1..] == cs[2..];
    assert CountIn(cs[1..], cats) == 4;
    assert cs[0..][1..] == cs[1..];
    assert CountIn(cs[0..], cats) == 4;
    assert cs[0..] == cs;
  }

  lemma GuessCountHard()
    ensures CountIn(GuessBankCategoryList, GuessCategories(Hard)) == 4
  {
    var cs := GuessBankCategoryList;
    var cats: set<string> := {"monuments", "geography"};
    assert CountIn(cs[12..], cats) == 0;
    assert cs[11..][1..] == cs[12..];
    assert CountIn(cs[11..], cats) == 0;
    assert cs[10..][1..] == cs[11..];
    assert CountIn(cs[10..], cats) == 1;
    assert cs[9..][1..] == cs[10..];
    assert CountIn(cs[9..], cats) == 1;
    assert cs[8..][1..] == cs[9..];
    assert CountIn(cs[8..], cats) == 1;
    assert cs[7..][1..] == cs[8..];
    assert CountIn(cs[7..], cats) == 1;
    assert cs[6..][1..] == cs[7..];
    assert CountIn(cs[6..], cats) == 2;
    assert cs[5..][1..] == cs[6..];
    assert CountIn(cs[5..], cats) == 3;
    assert cs[4..][1..] == cs[5..];
    assert CountIn(cs[4..], cats) == 3;
    assert cs[3..][1..] == cs[4..];
    assert CountIn(cs[3..], cats) == 3;
    assert cs[2..][1..] == cs[3..];
    assert CountIn(cs[2..], cats) == 3;
    assert cs[1..][1..] == cs[2..];
    assert CountIn(cs[1..], cats) == 3;
    assert cs[0..][1..] == cs[1..];
    assert CountIn(cs[0..], cats) == 4;
    assert cs[0..] == cs;
  }

  /**
   * Every difficulty draws from four quiz items and four guess items, so a
   * request for more questions than that yields four.
   */
  lemma PoolsHoldFour(d: Difficulty)
    ensures |InCategories(QuizBank, QuizCategories(d))| == 4
    ensures |InCategories(GuessBank, GuessCategories(d))| == 4
  {
    InCategoriesCount(QuizBank, QuizCategories(d));
    InCategoriesCount(GuessBank, GuessCategories(d));
    QuizBankCategories();
    GuessBankCategories();
    CategoryListCounts(d);
  }
}
