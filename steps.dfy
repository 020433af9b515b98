/** Recipe steps and food items. */
module Steps {

  type U8 = x: int | 0 <= x < 0x100
  type U32 = x: int | 0 <= x < 0x1_0000_0000

  /** The food items a recipe may name. */
  datatype FoodItem = Chicken | Salmon

  /** One step of a recipe: preheat the oven to a temperature, or bake an item for a time. */
  datatype Step = PreheatOven(temperature: U8) | Bake(item: FoodItem, time: U32)
}
