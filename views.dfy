/** The closed set of screens the application can show, and the title shown
    in the header for each of them (App.tsx, `View` and `viewLabels`). */
module Views {

  datatype View = Home | Chat | Journal | Inspiration | Relax | Consultation | Ruqyah | Adhkar

  /** The header title of a view. Every view has one: the lookup is total. */
  function Label(v: View): (title: string)
    ensures |title| > 0
  {
    match v
    case Home => "آية ترشدك"
    case Chat => "الدردشة الإرشادية"
    case Journal => "دفتر هدايتي"
    case Inspiration => "ركن الإلهام"
    case Relax => "واحة السكينة"
    case Consultation => "الاستشارة الإسلامية"
    case Ruqyah => "الرقية الشرعية"
    case Adhkar => "أدعية وأذكار"
  }
}
