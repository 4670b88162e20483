/** The records the backend's canned-food endpoints return (lib/types.ts).
    JavaScript numbers are modelled as idealised `real`s, identifiers and
    page counters as `int`s, timestamps as the strings the backend sends. */
module FoodTypes {
  import opened Wrappers

  /** One nutrient reading as the label analysis reported it. */
  datatype NutritionValue = NutritionValue(value: Option<real>, unit: Option<string>)

  /** The raw per-nutrient readings kept as a backup of the analysis. */
  datatype Nutrition = Nutrition(
    protein: Option<NutritionValue>,
    fat: Option<NutritionValue>,
    fiber: Option<NutritionValue>,
    ash: Option<NutritionValue>,
    moisture: Option<NutritionValue>,
    calories: Option<NutritionValue>,
    phosphorus: Option<NutritionValue>,
    calcium: Option<NutritionValue>,
    sodium: Option<NutritionValue>,
    magnesium: Option<NutritionValue>,
    potassium: Option<NutritionValue>)

  datatype CannedFood = CannedFood(
    id: int,
    brandName: string,
    productName: string,
    imageUrl: Option<string>,
    calories: Option<real>,
    protein: Option<real>,
    fat: Option<real>,
    moisture: Option<real>,
    fiber: Option<real>,
    ash: Option<real>,
    phosphorusPer100kcal: Option<real>,
    calciumPer100kcal: Option<real>,
    calciumPhosphorusRatio: Option<real>,
    nutrition: Option<Nutrition>,
    createdAt: string,
    updatedAt: string)

  datatype PaginatedMeta = PaginatedMeta(total: int, page: int, limit: int, totalPages: int)

  datatype PaginatedResponse = PaginatedResponse(items: seq<CannedFood>, meta: PaginatedMeta)

  datatype AnalyzeResponse = AnalyzeResponse(success: bool, data: CannedFood)

  /** The body of `GET /api/canned-foods/brands`. */
  datatype BrandsResponse = BrandsResponse(brands: seq<string>)
}
