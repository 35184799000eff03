/**
 * The command-line decisions (src/polymarket_execution/cli.py): the argument check, the
 * routing of a trade to a dry run, a buy or a sell, and the exit code of the entry point.
 * The parsed command line is an input; printed text is left out, and the exit code is returned.
 */
module Cli {
  import opened Wrappers
  import opened Config
  import opened Trader

  /** The options of the `trade` sub-command after argparse. */
  datatype TradeArgs = TradeArgs(tokenId: string, price: Option<real>, size: Option<real>,
                                 side: string, dryRun: bool)

  /** The parsed command line: the sub-command (absent when none was given) and its options.
      `main` tests the command by truthiness, so an empty name counts as no command. */
  datatype CliArgs = CliArgs(command: Option<string>, trade: TradeArgs)

  /** Which check of `validate_trade_args` failed first. */
  datatype ArgError = TokenIdMissing | PriceMissing | SizeMissing | PriceOutOfRange | SizeNotPositive

  datatype ArgCheck = ArgsOk | ArgsRejected(error: ArgError)

  /** Where `handle_trade_command` sent the trade. */
  datatype Route = DryRun | LiveBuy | LiveSell

  /** The answer of `handle_trade_command` with the route taken and the client calls made. */
  datatype TradeOutcome = TradeOutcome(success: bool, route: Route, calls: seq<ClientCall>)

  /** `validate_trade_args`: the first failing check decides. */
  function ValidateTradeArgs(args: TradeArgs): (r: ArgCheck)
    ensures r == ArgsOk <==>
              && args.tokenId != ""
              && args.price.Some? && args.size.Some?
              && 0.01 <= args.price.value <= 1.0
              && args.size.value > 0.0
    ensures r == ArgsRejected(TokenIdMissing) <==> args.tokenId == ""
    ensures r == ArgsRejected(PriceMissing) <==> args.tokenId != "" && args.price.None?
    ensures r == ArgsRejected(SizeMissing) <==> args.tokenId != "" && args.price.Some? && args.size.None?
    ensures r == ArgsRejected(PriceOutOfRange) <==>
              args.tokenId != "" && args.price.Some? && args.size.Some? && !(0.01 <= args.price.value <= 1.0)
  {
    if args.tokenId == "" then ArgsRejected(TokenIdMissing)
    else if args.price.None? then ArgsRejected(PriceMissing)
    else if args.size.None? then ArgsRejected(SizeMissing)
    else if !(0.01 <= args.price.value <= 1.0) then ArgsRejected(PriceOutOfRange)
    else if args.size.value <= 0.0 then ArgsRejected(SizeNotPositive)
    else ArgsOk
  }

  /** The arguments the command line accepts lie within the trader's price bounds. */
  lemma ArgsWithinPriceBounds(args: TradeArgs)
    requires ValidateTradeArgs(args) == ArgsOk
    ensures MinPrice <= args.price.value <= MaxPrice && args.size.value > 0.0
  {
  }

  /** The command-line check is weaker than the trader's: a size of 0.05 passes it but is
      below the minimum order size. */
  lemma ArgsCheckWeakerThanTrader()
    ensures var args := TradeArgs("123", Some(0.6), Some(0.05), "buy", false);
            && ValidateTradeArgs(args) == ArgsOk
            && ValidateOrderParams(DefaultLimits(), 0.6, 0.05, Buy) == Rejected(SizeAtLeastMinimum)
  {
  }

  /** The side a live trade is placed with: `"buy"` buys, anything else sells. */
  function SideOf(side: string): (r: Side)
    ensures r == Buy <==> side == "buy"
  {
    if side == "buy" then Buy else Sell
  }

  /**
   * `handle_trade_command(args, trader)`. A dry run only validates the parameters and
   * makes no client call. A live run places a buy for side `"buy"` and a sell otherwise,
   * and every exception maps to False. Its one caller has checked price and size are present.
   */
  function HandleTradeCommand(args: TradeArgs, trader: PolymarketTrader, venue: Venue): (r: TradeOutcome)
    requires args.price.Some? && args.size.Some?
    reads trader
    ensures args.dryRun ==>
              && r.route == DryRun && r.calls == []
              && (r.success <==> OrderParamsAcceptable(trader.tradingLimits, args.price.value, args.size.value))
    ensures !args.dryRun ==>
              var placed := trader.PlaceOrder(venue, args.tokenId, args.price.value, args.size.value, SideOf(args.side));
              && r.route == (if args.side == "buy" then LiveBuy else LiveSell)
              && r.calls == placed.calls
              && (r.success <==> placed.result == Success(true))
    ensures !args.dryRun && !trader.Ready() ==> !r.success && r.calls == []
  {
    var price, size := args.price.value, args.size.value;
    if args.dryRun then
      TradeOutcome(ValidateOrderParams(trader.tradingLimits, price, size, SideOf(args.side)).Accepted?, DryRun, [])
    else
      var placed := if args.side == "buy" then trader.PlaceBuyOrder(venue, args.tokenId, price, size)
                    else trader.PlaceSellOrder(venue, args.tokenId, price, size);
      var success := match placed.result
                     case Success(b) => b
                     case Failure(_) => false;
      TradeOutcome(success, if args.side == "buy" then LiveBuy else LiveSell, placed.calls)
  }

  /**
   * `main()` run as the program, uncaught exceptions giving status 1. No command (absent
   * or empty): returns (status 0) before any configuration is built. Otherwise status 1 when loading raises,
   * when `validate()` fails, when `initialize_client()` fails, for an unknown command, or
   * when `validate_trade_args` fails; else 0 exactly when `handle_trade_command` succeeded.
   * `config` and `trader` are the objects built, null when never built.
   */
  method RunCli(args: CliArgs, settings: Settings, venue: Venue)
    returns (exitCode: int, config: PolymarketConfig?, trader: PolymarketTrader?)
    ensures exitCode == 0 || exitCode == 1
    ensures !Present(args.command) ==> exitCode == 0 && config == null && trader == null
    ensures Present(args.command) ==> (config != null <==> Loadable(settings))
    ensures trader != null ==> config != null && trader.config == config && config.IsValid()
    ensures config != null ==> (trader != null <==> config.IsValid())
    ensures trader != null ==> (trader.Ready() <==> InitSucceeds(venue, ClientParamsOf(config)))
    ensures exitCode == 0 <==>
              || !Present(args.command)
              || (&& args.command == Some("trade")
                  && trader != null && trader.Ready()
                  && ValidateTradeArgs(args.trade) == ArgsOk
                  && HandleTradeCommand(args.trade, trader, venue).success)
    ensures (Present(args.command) && config != null && config.IsValid()
             && !InitSucceeds(venue, ClientParamsOf(config))) ==> exitCode == 1
  {
    config, trader := null, null;
    if !Present(args.command) {
      return 0, config, trader;
    }
    var loaded, _ := PolymarketConfig.Load(settings);
    if loaded.Failure? {
      return 1, config, trader;
    }
    config := loaded.value;
    var valid, _, _ := config.Validate();
    if !valid {
      return 1, config, trader;
    }
    trader := new PolymarketTrader(config);
    var initialized, _, _ := trader.InitializeClient(venue);
    if !initialized {
      return 1, config, trader;
    }
    if args.command != Some("trade") {
      return 1, config, trader;
    }
    if ValidateTradeArgs(args.trade) != ArgsOk {
      return 1, config, trader;
    }
    var outcome := HandleTradeCommand(args.trade, trader, venue);
    exitCode := if outcome.success then 0 else 1;
  }
}
