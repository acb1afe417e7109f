/**
 * `DesignPatternType`: the 23 Gang of Four patterns numbered 1 to 23, and the two extension
 * methods that give a pattern's category and a one-line description. A C# enum variable
 * may hold any `int`, so both extension methods are modelled on the underlying number.
 */
module PatternCatalogue {
  import opened Wrappers

  /** The named members of the enumeration, in declaration order. */
  datatype Pattern =
    | AbstractFactory | Builder | FactoryMethod | Prototype | Singleton
    | Adapter | Bridge | Composite | Decorator | Facade | Flyweight | Proxy
    | ChainOfResponsibility | Command | Interpreter | Iterator | Mediator | Memento
    | Observer | State | Strategy | TemplateMethod | Visitor

  /** The number each member is declared with. */
  function Number(p: Pattern): (n: int)
    ensures 1 <= n <= 23
  {
    match p
    case AbstractFactory => 1
    case Builder => 2
    case FactoryMethod => 3
    case Prototype => 4
    case Singleton => 5
    case Adapter => 6
    case Bridge => 7
    case Composite => 8
    case Decorator => 9
    case Facade => 10
    case Flyweight => 11
    case Proxy => 12
    case ChainOfResponsibility => 13
    case Command => 14
    case Interpreter => 15
    case Iterator => 16
    case Mediator => 17
    case Memento => 18
    case Observer => 19
    case State => 20
    case Strategy => 21
    case TemplateMethod => 22
    case Visitor => 23
  }

  /** The named member a number stands for, if any. */
  function FromNumber(v: int): (r: Option<Pattern>)
    ensures r.Some? <==> 1 <= v <= 23
    ensures r.Some? ==> Number(r.value) == v
  {
    if v == 1 then Some(AbstractFactory)
    else if v == 2 then Some(Builder)
    else if v == 3 then Some(FactoryMethod)
    else if v == 4 then Some(Prototype)
    else if v == 5 then Some(Singleton)
    else if v == 6 then Some(Adapter)
    else if v == 7 then Some(Bridge)
    else if v == 8 then Some(Composite)
    else if v == 9 then Some(Decorator)
    else if v == 10 then Some(Facade)
    else if v == 11 then Some(Flyweight)
    else if v == 12 then Some(Proxy)
    else if v == 13 then Some(ChainOfResponsibility)
    else if v == 14 then Some(Command)
    else if v == 15 then Some(Interpreter)
    else if v == 16 then Some(Iterator)
    else if v == 17 then Some(Mediator)
    else if v == 18 then Some(Memento)
    else if v == 19 then Some(Observer)
    else if v == 20 then Some(State)
    else if v == 21 then Some(Strategy)
    else if v == 22 then Some(TemplateMethod)
    else if v == 23 then Some(Visitor)
    else None
  }

  /** Every member is found again from its number, so no two members share a number. */
  lemma NumberRoundTrip(p: Pattern)
    ensures FromNumber(Number(p)) == Some(p)
  {
  }

  /** The numbering is one-to-one. */
  lemma NumberInjective(p: Pattern, q: Pattern)
    requires Number(p) == Number(q)
    ensures p == q
  {
    NumberRoundTrip(p);
    NumberRoundTrip(q);
  }

  /** The grouping the enumeration's comments give: five creational, seven structural patterns. */
  predicate IsCreational(p: Pattern)
  {
    p in {AbstractFactory, Builder, FactoryMethod, Prototype, Singleton}
  }

  predicate IsStructural(p: Pattern)
  {
    p in {Adapter, Bridge, Composite, Decorator, Facade, Flyweight, Proxy}
  }

  /** `GetCategory`: two range tests on the number, and "Behavioral" for everything else. */
  function GetCategory(v: int): (r: string)
    ensures r == "Creational" <==> 1 <= v <= 5
    ensures r == "Structural" <==> 6 <= v <= 12
    ensures r == "Behavioral" <==> v < 1 || v > 12
  {
    if 1 <= v <= 5 then "Creational"
    else if 6 <= v <= 12 then "Structural"
    else "Behavioral"
  }

  /** On the named members the ranges agree with the grouping by name. */
  lemma CategoryOfMember(p: Pattern)
    ensures GetCategory(Number(p)) == "Creational" <==> IsCreational(p)
    ensures GetCategory(Number(p)) == "Structural" <==> IsStructural(p)
    ensures GetCategory(Number(p)) == "Behavioral" <==> !IsCreational(p) && !IsStructural(p)
  {
  }

  /** Values outside 1 to 23 are not members, and still count as "Behavioral". */
  lemma CategoryOutsideRange(v: int)
    requires v < 1 || v > 23
    ensures FromNumber(v) == None && GetCategory(v) == "Behavioral"
  {
  }

  /** The description of each named member. */
  function Describe(p: Pattern): string
  {
    match p
    case AbstractFactory => "Creates an instance of several families of classes"
    case Builder => "Separates object construction from its representation"
    case FactoryMethod => "Creates an instance of several derived classes"
    case Prototype => "A fully initialized instance to be copied or cloned"
    case Singleton => "Ensures a class has only one instance with global access"
    case Adapter => "Match interfaces of different classes"
    case Bridge => "Separates an object's interface from its implementation"
    case Composite => "A tree structure of simple and composite objects"
    case Decorator => "Add responsibilities to objects dynamically"
    case Facade => "A single class that represents an entire subsystem"
    case Flyweight => "A fine-grained instance used for efficient sharing"
    case Proxy => "An object representing another object"
    case ChainOfResponsibility => "A way of passing a request between a chain of objects"
    case Command => "Encapsulate a command request as an object"
    case Interpreter => "A way to include language elements in a program"
    case Iterator => "Sequentially access the elements of a collection"
    case Mediator => "Defines simplified communication between classes"
    case Memento => "Capture and restore an object's internal state"
    case Observer => "A way of notifying change to a number of classes"
    case State => "Alter an object's behavior when its state changes"
    case Strategy => "Encapsulates an algorithm inside a class"
    case TemplateMethod => "Defer the exact steps of an algorithm to a subclass"
    case Visitor => "Defines a new operation to a class without change"
  }

  /** The text of the switch's discard arm. */
  const Unknown: string := "Unknown pattern"

  /** `GetDescription`: a total switch; a number that names no member gets "Unknown pattern". */
  function GetDescription(v: int): (r: string)
    ensures r == Unknown <==> !(1 <= v <= 23)
    ensures 1 <= v <= 23 ==> r == Describe(FromNumber(v).value)
  {
    match FromNumber(v)
    case Some(p) => DescribeIsKnown(p); Describe(p)
    case None => Unknown
  }

  /** No member's description is the fallback text. */
  lemma DescribeIsKnown(p: Pattern)
    ensures Describe(p) != Unknown
  {
  }

  /** Each member's number gets that member's description. */
  lemma DescriptionOfMember(p: Pattern)
    ensures GetDescription(Number(p)) == Describe(p) && Describe(p) != Unknown
  {
    NumberRoundTrip(p);
    DescribeIsKnown(p);
  }

}
