/** The conversation states of the bot (app/fsm/states.py). */
module States {

  datatype ConversationState =
    | Greeting          // asks for the name
    | DetectIntent      // classifies the request and branches
    | CollectBrand      // asks for the brand or model
    | CollectSpecs      // asks for budget, body and drive
    | CollectRepairType // locksmith or bodywork repair
    | CollectPhone      // asks for and validates the phone
    | Confirm           // shows the summary
    | ConfirmFinal      // waits for yes / no / correction
    | Finished          // end of the dialogue
    | NonDealerChoice   // catalogue search and follow-up questions
}
