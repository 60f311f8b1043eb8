/** The price list of the operator. */
module PriceList {
  import opened Cost

  const PRICING: Prices := map[
    "anthropic.claude-opus-4-20250514-v1:0" := Price(15000, 75000),
    "anthropic.claude-sonnet-4-20250514-v1:0" := Price(3000, 15000),
    "anthropic.claude-sonnet-4-6-20250514-v1:0" := Price(3000, 15000),
    "anthropic.claude-3-7-sonnet-20250219-v1:0" := Price(3000, 15000),
    "anthropic.claude-3-5-sonnet-20241022-v2:0" := Price(3000, 15000),
    "anthropic.claude-3-5-sonnet-20240620-v1:0" := Price(3000, 15000),
    "anthropic.claude-3-5-haiku-20241022-v1:0" := Price(800, 4000),
    "anthropic.claude-3-opus-20240229-v1:0" := Price(15000, 75000),
    "anthropic.claude-3-sonnet-20240229-v1:0" := Price(3000, 15000),
    "anthropic.claude-3-haiku-20240307-v1:0" := Price(250, 1250),
    "anthropic.claude-haiku-4-5-20251001-v1:0" := Price(800, 4000),
    "meta.llama3-8b-instruct-v1:0" := Price(300, 600),
    "meta.llama3-70b-instruct-v1:0" := Price(2650, 3500),
    "meta.llama3-1-8b-instruct-v1:0" := Price(220, 220),
    "meta.llama3-1-70b-instruct-v1:0" := Price(720, 720),
    "meta.llama3-1-405b-instruct-v1:0" := Price(5320, 16000),
    "meta.llama3-2-11b-instruct-v1:0" := Price(160, 160),
    "meta.llama3-2-90b-instruct-v1:0" := Price(2000, 2000),
    "meta.llama3-2-1b-instruct-v1:0" := Price(100, 100),
    "meta.llama3-2-3b-instruct-v1:0" := Price(150, 150),
    "meta.llama3-3-70b-instruct-v1:0" := Price(720, 720),
    "amazon.titan-text-lite-v1" := Price(300, 400),
    "amazon.titan-text-express-v1" := Price(800, 1600),
    "amazon.titan-text-premier-v1:0" := Price(500, 1500),
    "amazon.nova-micro-v1:0" := Price(35, 140),
    "amazon.nova-lite-v1:0" := Price(60, 240),
    "amazon.nova-pro-v1:0" := Price(800, 3200),
    "amazon.nova-premier-v1:0" := Price(2500, 12500),
    "mistral.mistral-7b-instruct-v0:2" := Price(150, 200),
    "mistral.mixtral-8x7b-instruct-v0:1" := Price(450, 700),
    "mistral.mistral-large-2402-v1:0" := Price(4000, 12000),
    "mistral.mistral-large-2407-v1:0" := Price(3000, 9000),
    "mistral.mistral-small-2402-v1:0" := Price(1000, 3000),
    "cohere.command-r-v1:0" := Price(500, 1500),
    "cohere.command-r-plus-v1:0" := Price(3000, 15000),
    "cohere.command-text-v14" := Price(1500, 2000),
    "cohere.command-light-text-v14" := Price(300, 600),
    "cohere.embed-english-v3" := Price(100, 0),
    "cohere.embed-multilingual-v3" := Price(100, 0),
    "ai21.jamba-1-5-mini-v1:0" := Price(200, 400),
    "ai21.jamba-1-5-large-v1:0" := Price(2000, 8000)
  ]

  /** With the shipped prices the rounding bound is attained: n calls of one model, of one
      input token each, are billed n/2 micro-dollars more than they cost. */
  lemma ShippedPricesAreTight(n: nat)
    ensures var calls := seq(n, i => Usage("amazon.titan-text-premier-v1:0", 1, 0));
            Priced(PRICING, calls) == n && 1000 * Billed(PRICING, calls) - ExactTotal(PRICING, calls) == 500 * n
  {
    AccumulatedErrorIsTight(PRICING, "amazon.titan-text-premier-v1:0", n);
  }
}
