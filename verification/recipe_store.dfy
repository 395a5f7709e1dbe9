/** The record the application renders: one generated recipe. */
module RecipeStore {

  datatype Recipe = Recipe(
    title: string,
    ingredients: seq<string>,
    instructions: seq<string>,
    cookingTime: string,
    difficulty: string)
}
