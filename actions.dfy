/** The three outcomes every signal function of the dashboards chooses among. Each source file
    has its own word for the third one: "HOLD" (app.py, forex_ai_app.py, Core/Signals.py),
    "WAIT" (signal_engine.py) and "No trade" (App.py). */
module Actions {

  datatype Action = Buy | Sell | Hold
}
