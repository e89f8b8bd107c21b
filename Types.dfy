/** The records shared by the screens and the service layer (types.ts).
    Enumerations keep the application's own Spanish values; `Label()`
    gives the exact string the application stores. Optional booleans
    (`isError?`, `likedByMe?`) are plain booleans here, absent meaning
    false. Prices are whole euro cents. */
module Types {
  import opened Outcomes

  datatype Difficulty = Facil | Medio | Dificil {
    function Label(): string {
      match this
      case Facil => "Fácil"
      case Medio => "Medio"
      case Dificil => "Difícil"
    }
  }

  /** A recipe as the provider is asked to return it: a Recipe without its id. */
  datatype RecipeDraft = RecipeDraft(
    title: string,
    description: string,
    ingredients: seq<string>,
    steps: seq<string>,
    time: string,
    difficulty: Difficulty,
    calories: Option<string>)

  datatype Recipe = Recipe(
    id: string,
    title: string,
    description: string,
    ingredients: seq<string>,
    steps: seq<string>,
    time: string,
    difficulty: Difficulty,
    calories: Option<string>)

  /** `{ ...draft, id }`: the draft's fields with an id added. */
  function WithId(d: RecipeDraft, id: string): Recipe {
    Recipe(id, d.title, d.description, d.ingredients, d.steps, d.time, d.difficulty, d.calories)
  }

  datatype ProductPrice = ProductPrice(supermarket: string, cents: nat, logo: string)

  datatype Product = Product(
    id: string,
    name: string,
    category: string,
    prices: seq<ProductPrice>,
    image: string)

  datatype Role = User | Model {
    function Label(): string {
      match this
      case User => "user"
      case Model => "model"
    }
  }

  datatype ChatMessage = ChatMessage(id: string, role: Role, text: string, isError: bool)

  datatype Comment = Comment(id: string, author: string, text: string, timestamp: string)

  datatype Category = General | Dudas | PresumirPlato {
    function Label(): string {
      match this
      case General => "General"
      case Dudas => "Dudas"
      case PresumirPlato => "Presumir Plato"
    }
  }

  datatype ForumPost = ForumPost(
    id: string,
    author: string,
    avatar: string,
    content: string,
    category: Category,
    likes: int,
    timestamp: string,
    comments: seq<Comment>,
    likedByMe: bool)

  datatype Goal = PerderPeso | GanarMusculo | Mantenerse {
    function Label(): string {
      match this
      case PerderPeso => "Perder peso"
      case GanarMusculo => "Ganar músculo"
      case Mantenerse => "Mantenerse"
    }
  }

  datatype Speed = Rapido | Moderado | Lento {
    function Label(): string {
      match this
      case Rapido => "Rápido"
      case Moderado => "Moderado"
      case Lento => "Lento"
    }
  }

  /** Age, weight and height are the raw text of number inputs. */
  datatype NutritionProfile = NutritionProfile(
    age: string,
    weight: string,
    height: string,
    goal: Goal,
    speed: Speed)

  datatype DayMenu = DayMenu(day: string, breakfast: string, lunch: string, dinner: string)

  datatype NutritionPlan = NutritionPlan(
    summary: string,
    recommendations: seq<string>,
    menu: seq<DayMenu>)
}
