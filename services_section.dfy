/** The public services section's colour rule: each category's card gets a
    fixed gradient, with a default for unknown categories. */
module ServicesSection {
  /** `gradients` */
  const Gradients: map<string, string> := map[
    "coupe" := "from-amber-500 to-amber-600",
    "coloration" := "from-stone-500 to-stone-600",
    "soins" := "from-stone-400 to-amber-500",
    "evenement" := "from-amber-500 to-stone-500",
    "general" := "from-amber-600 to-stone-600"
  ]

  const DefaultGradient: string := "from-amber-500 to-amber-600"

  /** `getGradientClass(category)`: `gradients[category] || default`. */
  function GradientClass(category: string): (g: string)
    ensures category in Gradients ==> g == Gradients[category]
    ensures category !in Gradients ==> g == DefaultGradient
  {
    if category in Gradients && Gradients[category] != "" then Gradients[category] else DefaultGradient
  }

  /** The five known categories and the fallback. */
  lemma GradientTable(category: string)
    ensures GradientClass("coupe") == "from-amber-500 to-amber-600"
    ensures GradientClass("coloration") == "from-stone-500 to-stone-600"
    ensures GradientClass("soins") == "from-stone-400 to-amber-500"
    ensures GradientClass("evenement") == "from-amber-500 to-stone-500"
    ensures GradientClass("general") == "from-amber-600 to-stone-600"
    ensures category !in {"coupe", "coloration", "soins", "evenement", "general"} ==>
      GradientClass(category) == DefaultGradient
  {
  }

  /** A haircut card cannot be told apart from one of an unknown category. */
  lemma CoupeLooksLikeDefault()
    ensures GradientClass("coupe") == GradientClass("")
  {
  }
}
